/** The project command palette (src/components/command-palette.tsx): the
    Cmd/Ctrl+K toggle, the search it sends to the project list query, the
    choice of what the result list shows, and selecting a project. */
module CommandPalette {
  import opened Common
  import opened QueryClient
  import ProjectQueries

  /** `useProjects({ search })`: the project list query for the search text. */
  function SearchQuery(search: string): Query
  {
    ProjectQueries.ProjectsQuery(Some(ProjectQueries.ListParams(None, None, Some(search))))
  }

  /** The palette asks for all projects while the search is empty and for
      `?search=<text>` otherwise, under the project lists key. */
  lemma SearchQueryRequest(search: string)
    ensures IsPrefix(ProjectQueries.ListsKey(), SearchQuery(search).key)
    ensures search == "" ==> SearchQuery(search).request.path == "/api/projects"
    ensures search != "" ==> SearchQuery(search).request.path == "/api/projects?search=" + search
  {
    var params := Some(ProjectQueries.ListParams(None, None, Some(search)));
    var cs := ProjectQueries.ListCandidates(params);
    var pairs: seq<Pair> := if search == "" then [] else [("search", search)];
    assert !cs[0].present && !cs[1].present;
    assert cs[2] == Candidate(search != "", "search", search);
    assert Select(cs[3..]) == [];
    assert Select(cs[2..]) == pairs;
    assert Select(cs[1..]) == pairs;
    assert ProjectQueries.ListPairs(params) == pairs;
  }

  /** The blocks the result list can show. */
  datatype Block = Searching | NoProjectsFound | ProjectsGroup | StartTyping

  /** The result list, in render order: "Searching..." while loading; once
      loaded and with a search, "No projects found" or the projects group;
      the "Start typing" prompt whenever the search is empty. */
  function Blocks(isLoading: bool, search: string, projectCount: nat): seq<Block>
  {
    (if isLoading then [Searching] else [])
      + (if !isLoading && search != "" && projectCount == 0 then [NoProjectsFound] else [])
      + (if !isLoading && search != "" && projectCount > 0 then [ProjectsGroup] else [])
      + (if search == "" then [StartTyping] else [])
  }

  /** Each block's condition, both ways: the empty state and the group need
      a finished load and a search and never show together; the prompt
      shows exactly for an empty search, also while loading, which is the
      one case of two blocks at once. */
  lemma BlocksShown(isLoading: bool, search: string, projectCount: nat)
    ensures var b := Blocks(isLoading, search, projectCount);
      && (Searching in b <==> isLoading)
      && (NoProjectsFound in b <==> !isLoading && search != "" && projectCount == 0)
      && (ProjectsGroup in b <==> !isLoading && search != "" && projectCount > 0)
      && !(NoProjectsFound in b && ProjectsGroup in b)
      && (StartTyping in b <==> search == "")
      && |b| == (if isLoading && search == "" then 2 else 1)
  {
  }

  class Palette {
    var isOpen: bool
    var search: string

    /** Closed, with an empty search. */
    constructor()
      ensures !isOpen && search == ""
    {
      isOpen := false;
      search := "";
    }

    /** The window keydown listener: Meta+K or Ctrl+K toggles the palette
        (and reports that the default action is prevented); any other key
        changes nothing. */
    method KeyDown(metaKey: bool, ctrlKey: bool, key: string) returns (prevented: bool)
      modifies this
      ensures prevented <==> (metaKey || ctrlKey) && key == "k"
      ensures prevented ==> isOpen == !old(isOpen)
      ensures !prevented ==> isOpen == old(isOpen)
      ensures search == old(search)
    {
      prevented := (metaKey || ctrlKey) && key == "k";
      if prevented {
        isOpen := !isOpen;
      }
    }

    /** The dialog's own open/close control. */
    method SetOpen(value: bool)
      modifies this
      ensures isOpen == value && search == old(search)
    {
      isOpen := value;
    }

    /** Typing in the search box. */
    method SetSearch(text: string)
      modifies this
      ensures search == text && isOpen == old(isOpen)
    {
      search := text;
    }

    /** handleSelectProject: navigates to the project's page, closes the
        palette and clears the search. */
    method SelectProject(projectId: string) returns (navigateTo: string)
      modifies this
      ensures navigateTo == "/projects/" + projectId
      ensures !isOpen && search == ""
    {
      navigateTo := "/projects/" + projectId;
      isOpen := false;
      search := "";
    }
  }
}
