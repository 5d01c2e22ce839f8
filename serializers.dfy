/**
 * `DataSetSerializer`: the JSON shape of a stored dataset, with the display
 * file name derived from the stored file path.
 */
module Serializers {
  import opened Common
  import opened Text

  /**
   * `get_filename`: the part of the stored name after its last "/", or
   * nothing when the dataset has no file (a file field with an empty name is
   * falsy).
   */
  function GetFilename(fileName: string): (r: Option<string>)
    ensures fileName == "" <==> r.None?
    ensures r.Some? ==> '/' !in r.value && EndsWith(fileName, r.value)
    ensures r.Some? && '/' !in fileName ==> r.value == fileName
  {
    if fileName == "" then None else Some(LastSegment(fileName))
  }

  /**
   * The display name is exactly what follows the last "/" of the stored name:
   * the stored name is some prefix ending in "/" followed by it, or it is the
   * whole stored name.
   */
  lemma GetFilenameSplits(fileName: string)
    requires fileName != ""
    ensures var name := GetFilename(fileName).value;
      || name == fileName
      || exists dir :: |dir| > 0 && dir[|dir| - 1] == '/' && fileName == dir + name
  {
    var name := GetFilename(fileName).value;
    if name != fileName {
      var dir := fileName[..|fileName| - |name|];
      assert dir[|dir| - 1] == fileName[|fileName| - |name| - 1] == '/';
      assert fileName == dir + name;
    }
  }

  /** A file uploaded under `datasets/` is shown under its own name. */
  lemma GetFilenameUploadDir(name: string)
    requires name != "" && '/' !in name
    ensures GetFilename("datasets/" + name) == Some(name)
  {
    var full := "datasets/" + name;
    assert full[|full| - |name|..] == name && full[|full| - |name| - 1] == '/';
    var r := LastSegment(full);
    assert r == name;
  }
}
