/**
 * The upload box: the `.csv` name check, the drag-highlight flag and the
 * hand-off of an accepted file to the page (`onDataLoaded`). The hand-offs
 * are recorded, in order, in the field `loaded`.
 */
module CsvUploader {
  import opened Common
  import opened Text

  /** A selected or dropped file; only its name is inspected. */
  datatype File = File(name: string, content: seq<int>)

  const CsvError: string := "Please upload a CSV file"

  /** `name.endsWith('.csv')`, case-sensitively. */
  predicate IsCsvName(name: string) {
    EndsWith(name, ".csv")
  }

  /** A name is accepted exactly when it is some string followed by ".csv". */
  lemma IsCsvNameSpec(name: string)
    ensures IsCsvName(name) <==> exists stem :: name == stem + ".csv"
  {
    if IsCsvName(name) {
      var stem := name[..|name| - 4];
      assert name == stem + ".csv";
    }
  }

  /** The check is case-sensitive and looks only at the end of the name. */
  lemma IsCsvNameExamples()
    ensures IsCsvName("data.csv") && IsCsvName(".csv")
    ensures !IsCsvName("DATA.CSV") && !IsCsvName("data.csv.txt") && !IsCsvName("csv")
  {
    assert "data.csv"[4..] == ".csv";
    assert "DATA.CSV"[4..] != ".csv";
    assert "data.csv.txt"[8..] != ".csv";
  }

  /** The highlight after a drag event of the given type. */
  function DragActiveAfter(active: bool, eventType: string): (r: bool)
    ensures eventType == "dragenter" || eventType == "dragover" ==> r
    ensures eventType == "dragleave" ==> !r
    ensures eventType !in {"dragenter", "dragover", "dragleave"} ==> r == active
  {
    if eventType == "dragenter" || eventType == "dragover" then true
    else if eventType == "dragleave" then false
    else active
  }

  /** `files && files[0]`: the first file of a list, if the list exists and has one. */
  function FirstFile(files: Option<seq<File>>): (r: Option<File>)
    ensures r.Some? <==> files.Some? && |files.value| > 0
    ensures r.Some? ==> r.value == files.value[0]
  {
    if files.Some? && |files.value| > 0 then Some(files.value[0]) else None
  }

  /** The component's three state variables and the hand-offs made so far. */
  class Uploader {
    var dragActive: bool
    var error: Option<string>
    var fileName: Option<string>
    var loaded: seq<(File, string)>

    /**
     * Every hand-off passes a `.csv` file together with its own name, and the
     * shown file name is the name of the last file handed off.
     */
    predicate Valid()
      reads this
    {
      && (forall k :: 0 <= k < |loaded| ==> loaded[k].1 == loaded[k].0.name && IsCsvName(loaded[k].1))
      && (loaded == [] ==> fileName.None?)
      && (loaded != [] ==> fileName == Some(loaded[|loaded| - 1].1))
    }

    constructor ()
      ensures !dragActive && error.None? && fileName.None? && loaded == []
      ensures Valid()
    {
      dragActive := false;
      error := None;
      fileName := None;
      loaded := [];
    }

    /**
     * `processFile`: a name not ending in ".csv" sets the error and nothing
     * else; an accepted file clears the error, becomes the shown file name and
     * is handed off exactly once.
     */
    method ProcessFile(file: File)
      requires Valid()
      modifies this
      ensures Valid()
      ensures dragActive == old(dragActive)
      ensures !IsCsvName(file.name) ==>
        error == Some(CsvError) && fileName == old(fileName) && loaded == old(loaded)
      ensures IsCsvName(file.name) ==>
        error.None? && fileName == Some(file.name) && loaded == old(loaded) + [(file, file.name)]
    {
      if !EndsWith(file.name, ".csv") {
        error := Some(CsvError);
        return;
      }
      error := None;
      fileName := Some(file.name);
      loaded := loaded + [(file, file.name)];
    }

    /** `handleDrag`: only the highlight changes. */
    method HandleDrag(eventType: string)
      modifies this
      ensures dragActive == DragActiveAfter(old(dragActive), eventType)
      ensures error == old(error) && fileName == old(fileName) && loaded == old(loaded)
    {
      if eventType == "dragenter" || eventType == "dragover" {
        dragActive := true;
      } else if eventType == "dragleave" {
        dragActive := false;
      }
    }

    /** `handleDrop`: the highlight goes off and only the first dropped file is processed. */
    method HandleDrop(files: seq<File>)
      requires Valid()
      modifies this
      ensures Valid() && !dragActive
      ensures files == [] ==> error == old(error) && fileName == old(fileName) && loaded == old(loaded)
      ensures files != [] && IsCsvName(files[0].name) ==>
        error.None? && fileName == Some(files[0].name) && loaded == old(loaded) + [(files[0], files[0].name)]
      ensures files != [] && !IsCsvName(files[0].name) ==>
        error == Some(CsvError) && fileName == old(fileName) && loaded == old(loaded)
    {
      dragActive := false;
      if |files| > 0 {
        ProcessFile(files[0]);
      }
    }

    /** `handleFileInput`: only the first selected file is processed; no selection does nothing. */
    method HandleFileInput(files: Option<seq<File>>)
      requires Valid()
      modifies this
      ensures Valid() && dragActive == old(dragActive)
      ensures FirstFile(files).None? ==> error == old(error) && fileName == old(fileName) && loaded == old(loaded)
      ensures FirstFile(files).Some? ==>
        var f := FirstFile(files).value;
        && (IsCsvName(f.name) ==> error.None? && fileName == Some(f.name) && loaded == old(loaded) + [(f, f.name)])
        && (!IsCsvName(f.name) ==> error == Some(CsvError) && fileName == old(fileName) && loaded == old(loaded))
    {
      var first := FirstFile(files);
      if first.Some? {
        ProcessFile(first.value);
      }
    }
  }
}
