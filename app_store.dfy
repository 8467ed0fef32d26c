/**
 * The editor and project state of src/store/appStore.ts: one object whose
 * fields every action updates, the project list among them.
 */
module AppStore {
  import opened Wrappers
  import opened Text
  import opened Types

  const DEFAULT_BPM := 90

  // ---------------------------------------------------------------------
  // The list operations the actions use
  // ---------------------------------------------------------------------

  /** k is the first position in the list holding a project with that id. */
  ghost predicate FirstWithId(projects: seq<UserProject>, id: string, k: int) {
    0 <= k < |projects| && projects[k].id == id && forall j :: 0 <= j < k ==> projects[j].id != id
  }

  /** `projects.find(p => p.id === id)`: the first project with that id. */
  function FindById(projects: seq<UserProject>, id: string): (r: Option<UserProject>)
    ensures r.Some? <==> exists k :: 0 <= k < |projects| && projects[k].id == id
    ensures r.Some? ==> exists k :: FirstWithId(projects, id, k) && projects[k] == r.value
  {
    if projects == [] then None
    else if projects[0].id == id then
      assert FirstWithId(projects, id, 0);
      Some(projects[0])
    else
      FindByIdShift(projects, id);
      FindById(projects[1..], id)
  }

  /** Looking past a first project with another id shifts every index by one. */
  lemma FindByIdShift(projects: seq<UserProject>, id: string)
    requires |projects| > 0 && projects[0].id != id
    ensures (exists k :: 0 <= k < |projects| && projects[k].id == id) <==>
            (exists k :: 0 <= k < |projects[1..]| && projects[1..][k].id == id)
    ensures forall k :: FirstWithId(projects[1..], id, k) ==>
              FirstWithId(projects, id, k + 1) && projects[k + 1] == projects[1..][k]
  {
    if exists k :: 0 <= k < |projects| && projects[k].id == id {
      var k :| 0 <= k < |projects| && projects[k].id == id;
      assert projects[1..][k - 1] == projects[k];
    }
    forall k | FirstWithId(projects[1..], id, k)
      ensures FirstWithId(projects, id, k + 1)
    {
      forall j | 1 <= j < k + 1 ensures projects[j].id != id {
        assert projects[j] == projects[1..][j - 1];
      }
    }
  }

  /** `projects.map(p => p.id === current.id ? current : p)`. */
  function ReplaceById(projects: seq<UserProject>, current: UserProject): (r: seq<UserProject>)
    ensures |r| == |projects|
    ensures forall k :: 0 <= k < |r| ==> r[k].id == projects[k].id
    ensures forall k :: 0 <= k < |r| ==> r[k] == if projects[k].id == current.id then current else projects[k]
  {
    if projects == [] then []
    else [if projects[0].id == current.id then current else projects[0]] + ReplaceById(projects[1..], current)
  }

  /** Saving twice in a row stores the same list as saving once. */
  lemma ReplaceByIdIdempotent(projects: seq<UserProject>, current: UserProject)
    ensures ReplaceById(ReplaceById(projects, current), current) == ReplaceById(projects, current)
  {
  }

  /** After a save the current project is in the list exactly when its id was. */
  lemma ReplaceByIdContains(projects: seq<UserProject>, current: UserProject)
    ensures current in ReplaceById(projects, current) <==> exists k :: 0 <= k < |projects| && projects[k].id == current.id
  {
    var r := ReplaceById(projects, current);
    if current in r {
      var k :| 0 <= k < |r| && r[k] == current;
      assert projects[k].id == current.id;
    }
    if exists k :: 0 <= k < |projects| && projects[k].id == current.id {
      var k :| 0 <= k < |projects| && projects[k].id == current.id;
      assert r[k] == current;
    }
  }

  /** `lines.filter((_, i) => i !== index)`, index by index. */
  function RemoveAt(lines: seq<string>, index: int): (r: seq<string>)
    ensures 0 <= index < |lines| ==> r == lines[..index] + lines[index + 1..]
    ensures !(0 <= index < |lines|) ==> r == lines
  {
    if lines == [] then []
    else
      var rest := RemoveAt(lines[1..], index - 1);
      if index == 0 then
        assert lines[1..] == lines[..0] + lines[1..];
        rest
      else
        assert 0 < index < |lines| ==>
                 lines[1..][..index - 1] == lines[1..index] && lines[1..][index..] == lines[index + 1..]
                 && lines[..index] == [lines[0]] + lines[1..index];
        assert lines == [lines[0]] + lines[1..];
        [lines[0]] + rest
  }

  /** The deleted index is gone and the other lines keep their order. */
  lemma {:induction false} RemoveAtKeepsOthers(lines: seq<string>, index: int, k: int)
    requires 0 <= index < |lines| && 0 <= k < |lines| - 1
    ensures |RemoveAt(lines, index)| == |lines| - 1
    ensures RemoveAt(lines, index)[k] == if k < index then lines[k] else lines[k + 1]
  {
    var r := RemoveAt(lines, index);
    assert r == lines[..index] + lines[index + 1..];
    if k < index {
      assert r[k] == lines[..index][k];
    } else {
      assert r[k] == lines[index + 1..][k - index];
    }
  }

  /**
   * `const copy = [...lines]; copy[index] = text`: an index inside the list
   * replaces that line, the index just past the end appends, and a negative
   * index leaves the elements alone.
   */
  function SetAt(lines: seq<string>, index: int, text: string): (r: seq<string>)
    requires index <= |lines|
    ensures index < 0 ==> r == lines
    ensures |r| == if index == |lines| then |lines| + 1 else |lines|
    ensures 0 <= index ==> r[index] == text
    ensures forall k :: 0 <= k < |lines| && k != index ==> r[k] == lines[k]
  {
    if index < 0 then lines
    else if index == |lines| then lines + [text]
    else lines[index := text]
  }

  // ---------------------------------------------------------------------
  // The store
  // ---------------------------------------------------------------------

  class Store {
    var projects: seq<UserProject>
    var currentProject: Option<UserProject>
    var lines: seq<string>
    var currentLine: int
    var bpm: int
    var currentSuggestions: seq<RhymeCandidate>
    var selectedSuggestion: int
    var pendingSlang: Option<string>
    var feedbackHistory: seq<Feedback>

    /**
     * What every action keeps: an open project is in the list and holds the
     * lines being edited.
     */
    ghost predicate Valid()
      reads this
    {
      currentProject.Some? ==> currentProject.value in projects && currentProject.value.lines == lines
    }

    /** The initial state. */
    constructor ()
      ensures Valid()
      ensures projects == [] && currentProject.None? && lines == [""] && currentLine == 0
      ensures bpm == DEFAULT_BPM && currentSuggestions == [] && selectedSuggestion == 0
      ensures pendingSlang.None? && feedbackHistory == []
    {
      projects := [];
      currentProject := None;
      lines := [""];
      currentLine := 0;
      bpm := DEFAULT_BPM;
      currentSuggestions := [];
      selectedSuggestion := 0;
      pendingSlang := None;
      feedbackHistory := [];
    }

    /** `createProject(name)`, with `now` the value `Date.now()` reads. */
    method CreateProject(name: string, now: int)
      requires Valid()
      modifies this
      ensures Valid()
      ensures var p := UserProject(IntToString(now), name, [""], now, now);
              && projects == old(projects) + [p] && currentProject == Some(p)
      ensures lines == [""] && currentLine == 0
      ensures bpm == old(bpm) && currentSuggestions == old(currentSuggestions)
      ensures selectedSuggestion == old(selectedSuggestion) && pendingSlang == old(pendingSlang)
      ensures feedbackHistory == old(feedbackHistory)
    {
      var p := UserProject(IntToString(now), name, [""], now, now);
      projects := projects + [p];
      currentProject := Some(p);
      lines := [""];
      currentLine := 0;
    }

    /** `selectProject(id)`: the first project with the id is opened; an unknown id changes nothing. */
    method SelectProject(id: string)
      requires Valid()
      modifies this`currentProject, this`lines, this`currentLine
      ensures Valid()
      ensures var found := FindById(old(projects), id);
              && (found.Some? ==> currentProject == found && lines == found.value.lines && currentLine == 0)
              && (found.None? ==> currentProject == old(currentProject) && lines == old(lines)
                                  && currentLine == old(currentLine))
    {
      var project := FindById(projects, id);
      if project.Some? {
        currentProject := project;
        lines := project.value.lines;
        currentLine := 0;
      }
    }

    /**
     * `saveProject`, with `now` the value `Date.now()` reads: the open
     * project takes the current lines and timestamp, and every project with
     * its id is replaced by it. Without an open project nothing changes.
     */
    method SaveProject(now: int)
      modifies this`currentProject, this`projects
      ensures old(currentProject).None? ==> currentProject == old(currentProject) && projects == old(projects)
      ensures old(currentProject).Some? ==>
                var saved := old(currentProject).value.(lines := lines, updatedAt := now);
                currentProject == Some(saved) && projects == ReplaceById(old(projects), saved)
      ensures old(Valid()) ==> Valid()
    {
      if currentProject.Some? {
        var saved := currentProject.value.(lines := lines, updatedAt := now);
        ghost var before := currentProject.value;
        currentProject := Some(saved);
        if before in projects {
          var k :| 0 <= k < |projects| && projects[k] == before;
          ReplaceByIdContains(projects, saved);
        }
        projects := ReplaceById(projects, saved);
      }
    }

    /** `updateLines(lines)`, then a save. */
    method UpdateLines(newLines: seq<string>, now: int)
      requires Valid()
      modifies this`lines, this`currentProject, this`projects
      ensures Valid() && lines == newLines
      ensures old(currentProject).Some? ==>
                currentProject == Some(old(currentProject).value.(lines := newLines, updatedAt := now))
                && projects == ReplaceById(old(projects), currentProject.value)
      ensures old(currentProject).None? ==> currentProject == old(currentProject) && projects == old(projects)
    {
      lines := newLines;
      SaveProject(now);
    }

    /** `addLine`: one empty line at the end, then a save. */
    method AddLine(now: int)
      requires Valid()
      modifies this`lines, this`currentProject, this`projects
      ensures Valid() && lines == old(lines) + [""]
      ensures old(currentProject).Some? ==>
                currentProject == Some(old(currentProject).value.(lines := lines, updatedAt := now))
                && projects == ReplaceById(old(projects), currentProject.value)
      ensures old(currentProject).None? ==> currentProject == old(currentProject) && projects == old(projects)
    {
      lines := lines + [""];
      SaveProject(now);
    }

    /** `updateLine(index, text)`, then a save. */
    method UpdateLine(index: int, text: string, now: int)
      requires Valid() && index <= |lines|
      modifies this`lines, this`currentProject, this`projects
      ensures Valid() && lines == SetAt(old(lines), index, text)
      ensures old(currentProject).Some? ==>
                currentProject == Some(old(currentProject).value.(lines := lines, updatedAt := now))
                && projects == ReplaceById(old(projects), currentProject.value)
      ensures old(currentProject).None? ==> currentProject == old(currentProject) && projects == old(projects)
    {
      lines := SetAt(lines, index, text);
      SaveProject(now);
    }

    /** `deleteLine(index)`, then a save. */
    method DeleteLine(index: int, now: int)
      requires Valid()
      modifies this`lines, this`currentProject, this`projects
      ensures Valid() && lines == RemoveAt(old(lines), index)
      ensures old(currentProject).Some? ==>
                currentProject == Some(old(currentProject).value.(lines := lines, updatedAt := now))
                && projects == ReplaceById(old(projects), currentProject.value)
      ensures old(currentProject).None? ==> currentProject == old(currentProject) && projects == old(projects)
    {
      lines := RemoveAt(lines, index);
      SaveProject(now);
    }

    /** `setSuggestions(candidates)`: the selection goes back to the first. */
    method SetSuggestions(candidates: seq<RhymeCandidate>)
      modifies this`currentSuggestions, this`selectedSuggestion
      ensures currentSuggestions == candidates && selectedSuggestion == 0
    {
      currentSuggestions := candidates;
      selectedSuggestion := 0;
    }

    /** `selectSuggestion(index)`. */
    method SelectSuggestion(index: int)
      modifies this`selectedSuggestion
      ensures selectedSuggestion == index
    {
      selectedSuggestion := index;
    }

    /** `applySuggestion(text)`: the text replaces the current line, then a save. */
    method ApplySuggestion(text: string, now: int)
      requires Valid() && currentLine <= |lines|
      modifies this`lines, this`currentProject, this`projects
      ensures Valid() && lines == SetAt(old(lines), currentLine, text)
      ensures old(currentProject).Some? ==>
                currentProject == Some(old(currentProject).value.(lines := lines, updatedAt := now))
                && projects == ReplaceById(old(projects), currentProject.value)
      ensures old(currentProject).None? ==> currentProject == old(currentProject) && projects == old(projects)
    {
      var updated := SetAt(lines, currentLine, text);
      lines := updated;
      SaveProject(now);
    }

    /** `setPendingSlang(word)`. */
    method SetPendingSlang(word: Option<string>)
      modifies this`pendingSlang
      ensures pendingSlang == word
    {
      pendingSlang := word;
    }

    /** `addFeedback(feedback)`: appended, nothing else touched. */
    method AddFeedback(feedback: Feedback)
      modifies this`feedbackHistory
      ensures feedbackHistory == old(feedbackHistory) + [feedback]
    {
      feedbackHistory := feedbackHistory + [feedback];
    }

    /** `setCurrentLine(index)`. */
    method SetCurrentLine(index: int)
      modifies this`currentLine
      ensures currentLine == index
    {
      currentLine := index;
    }
  }
}
