// The file tree's expansion state: a tap on a directory row flips that
// directory's membership in the shared set of expanded locations, and an
// expanded directory lists the children loaded for it.
module FileNavigation {
  import opened Wrappers

  /** The set with `url`'s membership flipped. */
  function Toggle(items: set<string>, url: string): (r: set<string>)
    ensures url in r <==> url !in items
    ensures forall other :: other != url ==> (other in r <==> other in items)
  {
    if url in items then items - {url} else items + {url}
  }

  lemma ToggleTwiceRestores(items: set<string>, url: string)
    ensures Toggle(Toggle(items, url), url) == items
  {
  }

  /** The set of expanded locations that every row of the tree is bound to. */
  class ExpansionState {
    var items: set<string>

    constructor ()
      ensures items == {}
    {
      items := {};
    }
  }

  /** One row of the tree. `isDirectory` is whether the location names a
      directory; `children` is nil until a load has delivered a listing;
      `loadRequests` counts the listings requested. */
  class FileItemView {
    const url: string
    const isDirectory: bool
    const expanded: ExpansionState
    var children: Option<seq<string>>
    var loadRequests: nat

    constructor (url: string, isDirectory: bool, expanded: ExpansionState)
      ensures this.url == url && this.isDirectory == isDirectory && this.expanded == expanded
      ensures children == None && loadRequests == 0
    {
      this.url := url;
      this.isDirectory := isDirectory;
      this.expanded := expanded;
      children := None;
      loadRequests := 0;
    }

    /** Collapses an expanded row, or expands a collapsed one and requests
        its children; no other location's membership changes. */
    method ToggleExpansion()
      modifies expanded, this`loadRequests
      ensures expanded.items == Toggle(old(expanded.items), url)
      ensures loadRequests == old(loadRequests) + (if url in old(expanded.items) then 0 else 1)
    {
      if url in expanded.items {
        expanded.items := expanded.items - {url};
      } else {
        expanded.items := expanded.items + {url};
        loadRequests := loadRequests + 1;
      }
    }

    /** A tap toggles a directory row and does nothing on a file row. */
    method OnTap()
      modifies expanded, this`loadRequests
      ensures isDirectory ==> expanded.items == Toggle(old(expanded.items), url)
      ensures isDirectory ==> loadRequests == old(loadRequests) + (if url in old(expanded.items) then 0 else 1)
      ensures !isDirectory ==> expanded.items == old(expanded.items) && loadRequests == old(loadRequests)
    {
      if isDirectory {
        ToggleExpansion();
      }
    }

    /** A requested listing arrives and replaces the children. */
    method ChildrenLoaded(listing: seq<string>)
      modifies this`children
      ensures children == Some(listing)
    {
      children := Some(listing);
    }

    /** The child rows shown under this row: none unless it is an expanded
        directory; a listing not yet delivered shows as empty. */
    function ShownChildren(): (r: seq<string>)
      reads this, expanded
      ensures r != [] ==> isDirectory && url in expanded.items && children.Some?
      ensures isDirectory && url in expanded.items && children.Some? ==> r == children.value
    {
      if isDirectory && url in expanded.items then
        match children
        case None => []
        case Some(list) => list
      else []
    }
  }

  /** Tapping a directory twice leaves the expanded set as it was, and the
      listing is requested only by the tap that expanded it; tapping a file
      never changes anything. */
  method TapScenario() returns (before: set<string>, after: set<string>, loads: nat, fileLoads: nat)
    ensures before == after == {"/docs/other/"}
    ensures loads == 1 && fileLoads == 0
  {
    var shared := new ExpansionState();
    shared.items := {"/docs/other/"};
    var dir := new FileItemView("/docs/", true, shared);
    var file := new FileItemView("/docs/a.txt", false, shared);
    before := shared.items;
    dir.OnTap();
    file.OnTap();
    dir.OnTap();
    ToggleTwiceRestores(before, "/docs/");
    after := shared.items;
    loads := dir.loadRequests;
    fileLoads := file.loadRequests;
  }
}
