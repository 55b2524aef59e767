/**
 * `main`: picks the handler named by the first word, maps the outcome to the
 * process's exit status and applies `set_name_type` to the store.
 */
module Cli {
  import opened Wrappers
  import opened Naming
  import opened SchemeStore
  import opened Commands
  import opened Executor

  const CommandNames: set<string> := {"add", "rem", "set_flag", "set_egress_map", "set_ingress_map", "set_name_type"}

  /**
   * The command line after the program name, with `nameType` the scheme
   * `read_name_type` would return. Usage (exit 2) exactly when there is no
   * word, the word is -h/--help or it names no handler; otherwise the
   * handler's own outcome, which is never usage.
   */
  function Dispatch(words: seq<string>, nameType: string): (r: Outcome)
    ensures r.Usage? <==> |words| == 0 || words[0] !in CommandNames
    ensures |words| > 0 && words[0] == "add" ==> r == Add(words[1..], nameType)
    ensures |words| > 0 && words[0] == "rem" ==> r == Rem(words[1..])
    ensures |words| > 0 && words[0] == "set_flag" ==> r == SetFlag(words[1..])
    ensures |words| > 0 && words[0] == "set_egress_map" ==> r == SetEgressMap(words[1..])
    ensures |words| > 0 && words[0] == "set_ingress_map" ==> r == SetIngressMap(words[1..])
    ensures |words| > 0 && words[0] == "set_name_type" ==> r == SetNameType(words[1..])
    ensures r.Persist? ==> r.nameType in AllowedNameTypes
  {
    if |words| == 0 || words[0] == "-h" || words[0] == "--help" then
      Usage
    else
      var cmd, args := words[0], words[1..];
      if cmd == "add" then Add(args, nameType)
      else if cmd == "rem" then Rem(args)
      else if cmd == "set_flag" then SetFlag(args)
      else if cmd == "set_egress_map" then SetEgressMap(args)
      else if cmd == "set_ingress_map" then SetIngressMap(args)
      else if cmd == "set_name_type" then SetNameType(args)
      else Usage
  }

  /** Only `add` consults the stored scheme. */
  lemma OnlyAddReadsScheme(words: seq<string>, t1: string, t2: string)
    requires |words| == 0 || words[0] != "add"
    ensures Dispatch(words, t1) == Dispatch(words, t2)
  {
  }

  /** How the process ends: its exit status and the line it writes to standard error, if any. */
  datatype Exit = Exit(code: int, diagnostic: Option<string>)

  function Die(msg: string): Exit
  {
    Exit(1, Some("vconfig: " + msg))
  }

  /**
   * Exit status 2 for usage, 1 for a failed check or a failed command (with a
   * "vconfig: " diagnostic), 0 otherwise; usage text goes to standard output.
   */
  function Finish(o: Outcome, exec: seq<string> -> ExecStatus, quote: string -> string): (e: Exit)
    ensures e.code == 2 <==> o.Usage?
    ensures e.code == 0 <==> o.Persist? || (o.Command? && exec(o.argv).Succeeded?)
    ensures e.code == 1 <==> o.Failure? || (o.Command? && exec(o.argv).Failed?)
    ensures e.diagnostic.Some? <==> e.code == 1
    ensures e.diagnostic.Some? ==> |e.diagnostic.value| >= 9 && e.diagnostic.value[..9] == "vconfig: "
    ensures o.Failure? ==> e == Die(o.msg)
    ensures o.Command? && exec(o.argv).Failed? ==> e == Die(RunError(o.argv, exec(o.argv), quote).value)
  {
    match o
    case Usage => Exit(2, None)
    case Failure(msg) => Die(msg)
    case Persist(_) => Exit(0, None)
    case Command(argv) =>
      match RunError(argv, exec(argv), quote)
      case None => Exit(0, None)
      case Some(msg) => Die(msg)
  }

  /**
   * One invocation: the exit it ends with, and the store changed only by a
   * successful `set_name_type`, after which the stored scheme reads back.
   */
  method Vconfig(words: seq<string>, store: Store, exec: seq<string> -> ExecStatus, quote: string -> string)
      returns (e: Exit)
    modifies store
    ensures e == Finish(Dispatch(words, NameTypeOf(old(store.file))), exec, quote)
    ensures var o := Dispatch(words, NameTypeOf(old(store.file)));
      store.file == if o.Persist? then Some(o.nameType) else old(store.file)
    ensures |words| == 2 && words[0] == "set_name_type" && e.code == 0 ==> NameTypeOf(store.file) == words[1]
  {
    ghost var stored := NameTypeOf(store.file);
    var nameType := DefaultNameType;
    if |words| > 0 && words[0] == "add" {
      nameType := store.ReadNameType();
    } else {
      OnlyAddReadsScheme(words, nameType, stored);
    }
    var o := Dispatch(words, nameType);
    assert o == Dispatch(words, stored);
    if o.Persist? {
      var written := store.WriteNameType(o.nameType);
      assert written.Ok?;
    }
    e := Finish(o, exec, quote);
    if |words| == 2 && words[0] == "set_name_type" && e.code == 0 {
      assert o == SetNameType(words[1..]) && o.Persist?;
    }
  }

  /**
   * Exit status 2 is reserved for the dispatcher's usage cases; a handler's
   * failed check always exits 1, whatever the executor would have done.
   */
  lemma ExitCodes(words: seq<string>, nameType: string, exec: seq<string> -> ExecStatus, quote: string -> string)
    ensures var e := Finish(Dispatch(words, nameType), exec, quote);
      && (e.code == 2 <==> |words| == 0 || words[0] !in CommandNames)
      && (Dispatch(words, nameType).Failure? ==> e.code == 1)
      && e.code in {0, 1, 2}
  {
  }

  lemma DispatchExamples(t: string)
    ensures Dispatch([], t) == Usage
    ensures Dispatch(["-h"], t) == Usage
    ensures Dispatch(["--help", "add"], t) == Usage
    ensures Dispatch(["frobnicate"], t) == Usage
    ensures Dispatch(["rem"], t) == Failure(RemUsage)
    ensures Dispatch(["rem", "eth0.5"], t) == Command(["ip", "link", "delete", "eth0.5"])
  {
  }
}
