/**
 * `run`: the argument vector is handed to an executor this model does not
 * see; only whether it succeeded and its standard error matter.
 */
module Executor {
  import opened Wrappers
  import opened Whitespace

  /** What the executor reports for one command. */
  datatype ExecStatus = Succeeded | Failed(stderr: string)

  /**
   * `' '.join(map(quote, cmd))`, with the shell-quoting function left as a
   * parameter: the quoted words in order, one space between neighbours.
   */
  function JoinQuoted(cmd: seq<string>, quote: string -> string): (r: string)
    ensures |cmd| > 0 ==> |quote(cmd[0])| <= |r| && r[..|quote(cmd[0])|] == quote(cmd[0])
    ensures |cmd| > 0 ==> var last := quote(cmd[|cmd| - 1]); |last| <= |r| && r[|r| - |last|..] == last
    ensures |cmd| > 1 ==> |r| > |quote(cmd[0])| && r[|quote(cmd[0])|] == ' '
  {
    if cmd == [] then ""
    else if |cmd| == 1 then quote(cmd[0])
    else quote(cmd[0]) + " " + JoinQuoted(cmd[1..], quote)
  }

  /**
   * The message `run` dies with, if any: the stripped standard error of a
   * failed command or, when that is empty, a "command failed" line naming the
   * command; never an empty message.
   */
  function RunError(cmd: seq<string>, status: ExecStatus, quote: string -> string): (r: Option<string>)
    ensures r.None? <==> status.Succeeded?
    ensures r.Some? ==> r.value != ""
    ensures r.Some? && Strip(status.stderr) != "" ==> r.value == Strip(status.stderr)
    ensures r.Some? && Strip(status.stderr) == "" ==> r.value == "command failed: " + JoinQuoted(cmd, quote)
  {
    match status
    case Succeeded => None
    case Failed(stderr) =>
      var text := Strip(stderr);
      Some(if text != "" then text else "command failed: " + JoinQuoted(cmd, quote))
  }
}
