/** The layered template filesystem (django/fs.go): later filesystems take priority. */
module DjangoFs {
  import opened Wrappers

  datatype File = File(name: string, content: seq<bv8>)

  datatype FsError = ErrNotExist | OtherFsError(message: string)

  /** An fs.FS: what opening each name yields. */
  datatype FS = FS(open: string -> Result<File, FsError>)

  /**
   * priorityFS.Open(name): try the filesystems from the last to the first and return the first
   * file opened; when none opens it, fs.ErrNotExist, whatever the underlying errors were.
   */
  method Open(df: seq<FS>, name: string) returns (r: Result<File, FsError>)
    ensures |df| == 0 ==> r == Err(ErrNotExist)
    ensures r.Ok? <==> exists i :: 0 <= i < |df| && df[i].open(name).Ok?
    ensures r.Ok? ==> exists i :: 0 <= i < |df| && r == df[i].open(name) &&
                        forall j :: i < j < |df| ==> df[j].open(name).Err?
    ensures r.Err? ==> r.error == ErrNotExist
  {
    var i := |df| - 1;
    while i >= 0
      invariant -1 <= i < |df|
      invariant forall j :: i < j < |df| ==> df[j].open(name).Err?
      decreases i + 1
    {
      var f := df[i].open(name);
      if f.Ok? {
        return f;
      }
      i := i - 1;
    }
    return Err(ErrNotExist);
  }
}
