/**
 * The persisted naming scheme: `read_name_type` and `write_name_type` over the
 * content of the single state file.
 */
module SchemeStore {
  import opened Wrappers
  import opened Whitespace
  import opened Naming

  function UnknownNameTypeMessage(t: string): string
  {
    "unknown name-type '" + t + "'"
  }

  /** The check `write_name_type` makes before touching the file. */
  function CheckNameType(t: string): (r: Result<string>)
    ensures r.Ok? <==> t in AllowedNameTypes
    ensures r.Ok? ==> r.value == t
    ensures r.Err? ==> r.msg == UnknownNameTypeMessage(t)
  {
    if t in AllowedNameTypes then Ok(t) else Err(UnknownNameTypeMessage(t))
  }

  /**
   * What `read_name_type` returns for a given state-file content (None: the
   * file does not exist): always one of the four schemes, the stripped
   * content when that is one of them, the default otherwise.
   */
  function NameTypeOf(file: Option<string>): (t: string)
    ensures t in AllowedNameTypes
    ensures file.Some? && Strip(file.value) in AllowedNameTypes ==> t == Strip(file.value)
    ensures file.None? || Strip(file.value) !in AllowedNameTypes ==> t == DefaultNameType
  {
    if file.Some? && Strip(file.value) in AllowedNameTypes then Strip(file.value) else DefaultNameType
  }

  /**
   * Whitespace around a stored scheme (a trailing newline added by an editor,
   * say) does not change what is read.
   */
  lemma ReadIgnoresSurroundingSpace(lead: string, t: string, trail: string)
    requires AllSpace(lead) && AllSpace(trail) && t in AllowedNameTypes
    ensures NameTypeOf(Some(lead + t + trail)) == t
  {
    assert NoEdgeSpace(t);
    StripSurrounded(lead, t, trail);
  }

  /** Reading back what was written gives the written scheme. */
  lemma ReadAfterWrite(t: string)
    requires CheckNameType(t).Ok?
    ensures NameTypeOf(Some(t)) == t
  {
    assert [] + t + [] == t;
    ReadIgnoresSurroundingSpace([], t, []);
  }

  /** The one persisted slot: the state file, absent or holding some text. */
  class Store {
    var file: Option<string>

    constructor (file: Option<string>)
      ensures this.file == file
    {
      this.file := file;
    }

    /** `read_name_type` */
    method ReadNameType() returns (t: string)
      ensures t in AllowedNameTypes
      ensures t == NameTypeOf(file)
    {
      t := NameTypeOf(file);
    }

    /**
     * `write_name_type`: an unknown scheme is refused and the file is left
     * as it was; an allowed one replaces the file's content, so that it is
     * what the next read returns.
     */
    method WriteNameType(t: string) returns (r: Result<string>)
      modifies this
      ensures r == CheckNameType(t)
      ensures file == if r.Ok? then Some(t) else old(file)
      ensures NameTypeOf(file) == if r.Ok? then t else old(NameTypeOf(file))
    {
      r := CheckNameType(t);
      if r.Ok? {
        file := Some(t);
        ReadAfterWrite(t);
      }
    }
  }
}
