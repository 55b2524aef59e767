# vconfig, modelled in Dafny

`vconfig.py` emulates the legacy `vconfig` VLAN tool on top of `ip(8)`. It
turns the old verbs (`add`, `rem`, `set_flag`, `set_egress_map`,
`set_ingress_map`, `set_name_type`) into one `ip` argument vector each. It
keeps the naming scheme for new VLAN devices in one state file.

This project models that translation layer:

- `whitespace.dfy` (`Whitespace`): Python's `str.strip()`. It is used on the
  state file's content and on a failed command's standard error.
- `decimal.dfy` (`Decimal`): `str(n)`, the `04d` zero-padded format, and the
  integer literals the model accepts as `int(s, 10)`: an optional sign and
  ASCII digits.
- `vlan_ids.dfy` (`VlanIds`): `parse_vlan_id`. It accepts the ids 0..4094,
  since IEEE 802.1Q reserves VID 4095.
- `naming.dfy` (`Naming`): the four naming schemes, the default scheme and
  `vlan_name`.
- `scheme_store.dfy` (`SchemeStore`): `read_name_type` and `write_name_type`.
  The state file is a class `Store` with one field `file: Option<string>`.
  `None` stands for a missing file.
- `commands.dfy` (`Commands`): the six `cmd_*` handlers and `_on_off`. Each
  handler is a function from its argument list (and, for `add`, the current
  scheme) to an `Outcome`. An outcome is one of: an `ip` argument vector, a
  scheme to persist, usage, or a failure message.
- `executor.dfy` (`Executor`): the failure message of `run`. The process
  runner is a parameter.
- `cli.dfy` (`Cli`): `main`'s dispatch table, the exit status (0, 1 for
  `die`, 2 for usage), and the method `Vconfig`. `Vconfig` runs one
  invocation against a `Store`.

Each handler yields at most one command, and `add` issues it once
(vconfig.py:97). `vconfig.py` does not retry a failed command, does not
recognise an "invalid interface name" error, does not fall back to a
`vlan<vid>` name, does not prompt for another name and does not check the
length of a derived name; the model has none of these either. Wrong argument
counts are reported by each handler through `die`, so they exit with status
1; only a missing, `-h`/`--help` or unknown subcommand exits with 2.

## Model

| member | source | states |
|---|---|---|
| `Whitespace.Strip` | vconfig.py:55 | the stripped text is no longer than the input and has no whitespace at either end |
| `Whitespace.StripSurrounded` | vconfig.py:55 | stripping removes exactly the surrounding whitespace: a text without edge whitespace comes back unchanged, whatever whitespace surrounds it |
| `Whitespace.StripIdempotent` | vconfig.py:55 | stripping twice is the same as stripping once |
| `Decimal.NatToDecimal` | vconfig.py:97 | `str(vid)` is canonical decimal: only digits, and no leading zero unless the value is 0 |
| `Decimal.DecimalRoundTrip` | vconfig.py:97 | reading `str(n)` back as decimal gives `n` |
| `Decimal.CanonicalUnique` | vconfig.py:97 | a canonical digit string is exactly `str` of its value, so the normalised form is unique |
| `Decimal.ZeroPadded` | vconfig.py:81 | the `04d` rendering is digits denoting the value, at least 4 long, exactly 4 long for values below 10000, and exactly `str(n)` when that already has 4 or more digits |
| `Decimal.IsIntLiteral` | vconfig.py:72 | a literal the model accepts as `int(s, 10)` is non-empty, at most 4301 characters long, and made of ASCII digits after an optional leading sign |
| `Decimal.IntValue` | vconfig.py:72 | the value of a literal has the digits' value as its magnitude, and it is negative only after a minus sign and positive only without one |
| `Decimal.DecimalIsIntLiteral` | vconfig.py:72 | `int(str(n), 10)` accepts the text and returns `n`, for `str(n)` within the 4300-digit limit |
| `Decimal.DigitLimitRejects` | vconfig.py:72 | a run of more than 4300 digits, signed or not, is not accepted as an integer |
| `VlanIds.ParseVlanId` | vconfig.py:69-77 | succeeds exactly on integer literals whose value is in 0..4094 and returns that value; a non-literal gets the "use decimal" error, an out-of-range value the range error |
| `VlanIds.NormalisedIdParsesBack` | vconfig.py:69-77 | `str` of an accepted id is canonical and parses back to the same id |
| `VlanIds.NormalisedIdUnique` | vconfig.py:69-77 | `str(vid)` is the only canonical text that parses to `vid` |
| `VlanIds.ParseVlanIdBoundary` | vconfig.py:75-76 | "4094" is accepted as 4094 and "4095" is rejected with the range error |
| `VlanIds.ParseVlanIdLeadingZeros` | vconfig.py:72 | "007" is read in base 10 as id 7 |
| `VlanIds.ParseVlanIdDigitLimit` | vconfig.py:72-74 | a decimal text of more than 4300 digits gets the "use decimal" error, not the range error |
| `VlanIds.ParseVlanIdRejects` | vconfig.py:72-76 | "-1" gets the range error; "0x10" and "" get the "use decimal" error |
| `Naming.VlanName` | vconfig.py:79-88 | every scheme's name is its prefix ("vlan" for the VLAN_ schemes, parent + "." otherwise) followed by the 4-digit padded id for VLAN_PLUS_VID and DEV_PLUS_VID and by `str(vid)` for every other scheme string |
| `Naming.VlanNameDecodes` | vconfig.py:79-88 | the name is the scheme's prefix ("vlan", or parent + ".") followed by digits denoting the id. They are 4 digits for the padded schemes when the id has at most 4 digits, and exactly `str(vid)` for a padded id of 4 or more digits and for the unpadded schemes. Unknown schemes use the parent prefix without padding |
| `Naming.VlanNameDeterminesId` | vconfig.py:79-88 | for a fixed parent and scheme, different ids give different names |
| `Naming.UnknownSchemeFallsBack` | vconfig.py:88 | any scheme string outside the four known ones names the device like DEV_PLUS_VID_NO_PAD |
| `Naming.VlanNameExamples` | vconfig.py:15-16 | eth0 with id 5 gives vlan0005, vlan5, eth0.0005 and eth0.5; eth0 with id 4094 under DEV_PLUS_VID gives eth0.4094 |
| `SchemeStore.CheckNameType` | vconfig.py:63-64 | a scheme is accepted exactly when it is one of the four; otherwise the "unknown name-type" error |
| `SchemeStore.NameTypeOf` | vconfig.py:52-60 | the read scheme is always one of the four. It is the stripped content when that is allowed, and the default when the file is missing or holds anything else |
| `SchemeStore.ReadIgnoresSurroundingSpace` | vconfig.py:55-57 | an allowed scheme stored with surrounding whitespace (a trailing newline, say) reads back as that scheme |
| `SchemeStore.ReadAfterWrite` | vconfig.py:62-67 | a file holding exactly an accepted scheme reads back as that scheme |
| `SchemeStore.Store.ReadNameType` | vconfig.py:52-60 | returns one of the four schemes, the one the file's content determines |
| `SchemeStore.Store.WriteNameType` | vconfig.py:62-67 | an unknown scheme is refused and the file is left unchanged; an accepted scheme becomes the file's content and is what the next read returns |
| `Commands.Add` | vconfig.py:90-99 | any arity other than 2 gives the usage failure, and a bad id gives the id's error. Otherwise the vector is exactly `ip link add link <parent> name <vlan_name(parent, vid, scheme)> type vlan id <str(vid)>` |
| `Commands.AddIdNormalised` | vconfig.py:90-97 | the vector has 11 tokens with the parent in place 4. Its id token is canonical decimal that parses to the argument's id, and its name token is the scheme prefix followed by digits denoting that id |
| `Commands.Rem` | vconfig.py:101-106 | exactly one argument gives `ip link delete <dev>`; any other count gives the usage failure |
| `Commands.SetNameType` | vconfig.py:108-112 | exactly one allowed scheme gives a request to persist it. A wrong count gives the usage failure, and an unknown scheme the "unknown name-type" failure |
| `Commands.OnOff` | vconfig.py:114-117 | "1" gives on and "0" gives off; anything else gets the flag-value error |
| `Commands.FlagName` | vconfig.py:129-135 | flag numbers 1, 2, 3 and 4 select reorder_hdr, gvrp, mvrp and loose_binding; no other text selects a flag |
| `Commands.FlagNameInjective` | vconfig.py:129-134 | distinct flag numbers select distinct flags |
| `Commands.SetFlag` | vconfig.py:119-140 | 2 arguments target reorder_hdr. With 3, an unknown flag number fails before the value is looked at, and no vector is built. A bad value fails with the flag-value error, and any other arity gives the usage failure. Otherwise `ip link set dev <dev> type vlan <flag> <on/off>` |
| `Commands.SetFlagCompatibilityForm` | vconfig.py:123-126 | `set_flag <dev> <v>` behaves exactly like `set_flag <dev> 1 <v>` |
| `Commands.MapTokenInjective` | vconfig.py:151 | a `<a>:<b>` map token with integer-literal operands determines both operands |
| `Commands.SetEgressMap` | vconfig.py:142-152 | a vector exactly when there are 3 arguments and both values are integer literals. It ends in `egress-qos-map <skb>:<qos>` built from the raw texts; otherwise the usage failure or the integer failure |
| `Commands.SetIngressMap` | vconfig.py:154-165 | a vector exactly when there are 3 arguments and both values are integer literals. It ends in `ingress-qos-map <qos>:<skb>` built from the raw texts; otherwise the usage failure or the integer failure |
| `Commands.IngressSwapsOperands` | vconfig.py:142-165 | egress and ingress accept the same arguments. The ingress token of (skb, qos) is the egress token of (qos, skb), and the two tokens coincide only when skb and qos are the same text |
| `Commands.MapDigitLimit` | vconfig.py:147-150 | a QoS value of more than 4300 digits, as either operand of either map command, gives the integer failure and no map command |
| `Commands.QosMapExample` | vconfig.py:151 | for skb 3 and qos 7 the egress token is "3:7" and the ingress token "7:3" |
| `Executor.JoinQuoted` | vconfig.py:42 | the joined text starts with the first quoted word, ends with the last, and has a space right after the first when there are several |
| `Executor.RunError` | vconfig.py:38-42 | no message on success. On failure the message is never empty: the stripped standard error, or when that is empty, "command failed: " and the quoted command |
| `Cli.Dispatch` | vconfig.py:171-187 | usage exactly when there is no word, the word is -h/--help, or it names no handler; each of the six command words goes to its own handler with the remaining words, and only allowed schemes are ever persisted |
| `Cli.OnlyAddReadsScheme` | vconfig.py:90-97 | the stored scheme affects only `add` |
| `Cli.Finish` | vconfig.py:34-42 | exit 2 exactly for usage (`usage`, vconfig.py:167-169), with no diagnostic. Exit 1 exactly for a failed check or a failed command, with a "vconfig: " diagnostic: the check's message, or `run`'s message for a failed command. Otherwise 0, with no diagnostic |
| `Cli.Vconfig` | vconfig.py:171-187 | one invocation ends as the dispatch outcome and the executor decide. The store changes only through a successful `set_name_type`, after which the new scheme reads back |
| `Cli.ExitCodes` | vconfig.py:167-187 | exit 2 exactly when the subcommand is missing, help or unknown. A handler's failed check always exits 1, and no other status occurs |
| `Cli.DispatchExamples` | vconfig.py:173-186 | no word, -h, --help and an unknown word give usage; `rem` without an argument fails; `rem eth0.5` gives `ip link delete eth0.5` |

## Left out

- `Decimal.IsIntLiteral`: it accepts only an optional sign followed by 1 to 4300 ASCII digits. It refuses three kinds of text that Python's `int(s, 10)` accepts: text with surrounding whitespace (`" 5"`), text with `_` digit separators (`"1_0"`), and text with non-ASCII decimal digits.
- `VlanIds.ParseVlanId`: integer literals are an optional sign followed by 1 to 4300 ASCII digits. Python's `int(s, 10)` also accepts surrounding whitespace, `_` digit separators and non-ASCII digits, so the model refuses some ids the code accepts. The 4300-digit limit is CPython's default from 3.11 on, and from the 3.10.7, 3.9.14, 3.8.14 and 3.7.14 security releases. The model does not cover a limit changed through `PYTHONINTMAXSTRDIGITS` or `sys.set_int_max_str_digits`, or earlier interpreters that have no limit; a limit raised or disabled there makes the code accept longer texts the model refuses, and a limit lowered there (to as little as 640) makes it refuse texts of 641 to 4300 digits the model accepts.
- `Commands.SetEgressMap`: the same simplification of `int()`, digit limit included, applies to the QoS values.
- `Commands.SetIngressMap`: the same simplification of `int()`, digit limit included, applies to the QoS values.
- `Naming.VlanName`: the id is a natural number. The code only ever calls it with a parsed id in 0..4094, so negative ids are not modelled.
- `Executor.RunError`: `shlex.quote` is the parameter `quote`, not modelled; the process itself (`subprocess.run`) is the parameter `exec` of `Cli.Finish` and `Cli.Vconfig`. `exec` returns only success or a failure with standard error. A missing `ip` binary makes `subprocess.run` raise an operating-system error (vconfig.py:40), and `except CalledProcessError` does not catch it. The program then exits 1 with a traceback and no "vconfig: " line, which `Cli.Finish` does not cover.
- `SchemeStore.Store.ReadNameType`: the file's content is an `Option<string>`. Operating-system errors other than a missing file, `os.makedirs` and the fixed path `/run/vconfig_name_type` are not modelled. Content that is not valid text in the locale's encoding makes `f.read()` raise `UnicodeDecodeError` (vconfig.py:54-55). That error is a `ValueError`, so `except FileNotFoundError` does not catch it, and `add` ends with a traceback. `Option<string>` has no such case.
- `ensure_root` (vconfig.py:44-46): depends on the process's effective user id, and is left out.
- `ensure_8021q` (vconfig.py:48-50): it probes `/sys/module` and may run `modprobe`. It is left out, so a failing `modprobe` before `add` is not modelled.
- The usage text printed by `usage()` (vconfig.py:167-169) is not modelled; only its exit status 2 is.
