# TP-Link HS100/HS110 smart-plug client: protocol core in Dafny

This project models the protocol core of `kasa_control.py`, a command-line
client for TP-Link HS100/HS110 Wi-Fi smart plugs. It proves properties of
that model. The client does four things:

* It builds a JSON command from one of twelve command words. Each handler
  writes one fixed object under one top-level key (`system`, `cnCloud` or
  `emeter`) of a global `command` dict.
* It encrypts the serialised command with an XOR-chain stream cipher. The
  running key starts at `0xAB` and then becomes the previous ciphertext byte.
  It prefixes the result with the four bytes `00 00 00 23`.
* It reads the reply, drops the first four bytes and decrypts the rest.
* It decides whether to echo the reply, and picks the exit code: 1 or 2 for
  the `state` query, according to `system.get_sysinfo.relay_state`, and 0
  otherwise.

Files and modules:

* `base.dfy` (`Base`): `Option`, `Result`, and the Python exceptions the
  model tracks (`KeyError`, `TypeError`, `NameError`).
* `json.dfy` (`JsonValue`): the JSON value tree and Python's chained
  subscription `v[k1][k2]...`.
* `cipher.dfy` (`Cipher`): `Encode`/`Decode` as specification functions, and
  `EncodeBytes`/`DecodeBytes`, the source's loops, proved against them. Both
  directions are characterised by one recurrence, `Chained(p, c)`: byte `i` of
  the ciphertext is plaintext byte `i` XOR the seed (at 0) or XOR ciphertext
  byte `i-1`. Both round trips follow from that recurrence having a unique
  solution.
* `framing.dfy` (`Framing`): the prefix, the `raw[4:]` unframing, and the
  request/reply steps of the script.
* `commands.dfy` (`Commands`): the command datatype, the payload table, and
  class `Invocation`. Its fields are the script's globals `command` and
  `info`. Its methods are the twelve `*_cmd` handlers and the dispatch.
* `interpret.dfy` (`Interpret`): the echo decision and the exit code.

Bytes are `bv8`, so every value a cipher method produces is in 0..255 by
construction.

The cipher methods have no `modifies` clause and no fields. Each call
starts from the seed `0xAB`, so no key state carries over between calls.

The socket exchange is replaced by parameters: the received bytes, and the
result of parsing the decrypted text as JSON.

The model follows the code as written, with one exception: the `emeter` handler, which cannot run as written, is modelled in its corrected form (see "## Findings"). It also follows the code where the code differs from how the protocol is usually described:

* A reply shorter than the prefix is not reported as a framing error.
  The code slices `result[4:]`, which yields an empty string for short replies,
  so `Framing.Unframe` returns the empty sequence. The later JSON parse
  failure is the parse-result parameter of `Interpret.Finish`.
* The reset/reboot delay and the bind credentials are not parameters.
  The code hard-codes a delay of 1 and the placeholder
  credentials `"yourUsername"`/`"yourPassword"`, and the model does the same.
* The prefix is not a length field.
  The code sends the constant `00 00 00 23` whatever the payload length, and
  on receipt drops any four bytes without checking them.
* `reset_cmd`, `reboot_cmd`, `unbind_cmd` and `emeter_cmd` return `None`,
  which `if state:` treats as false. The dispatch therefore sets the state
  flag to false for them.
* `relay_state == 1` is evaluated by Python, so JSON `true` also counts as
  ON (`True == 1`). Any value other than 1 or `true` counts as OFF.

## Model

| member | source | states |
|---|---|---|
| Cipher.Encode | kasa_control.py:111-117 | the ciphertext has exactly one byte per plaintext byte |
| Cipher.Decode | kasa_control.py:101-108 | the plaintext has exactly one byte per ciphertext byte |
| Cipher.EncodeAt | kasa_control.py:111-117 | ciphertext byte `i` is plaintext byte `i` XOR the key in force at `i` (the seed, else the ciphertext byte before) |
| Cipher.DecodeAt | kasa_control.py:101-108 | plaintext byte `i` is ciphertext byte `i` XOR the key in force at `i` (the seed, else the ciphertext byte before) |
| Cipher.EncodeChained | kasa_control.py:97-117 | encode satisfies `c[0] = p[0] ^ 0xAB` and `c[i] = p[i] ^ c[i-1]`: the key restarts at the seed and then is the ciphertext byte just produced |
| Cipher.DecodeChained | kasa_control.py:97-108 | decode chains on the consumed ciphertext byte, not on the plaintext it produced: `p[0] = c[0] ^ 0xAB`, `p[i] = c[i] ^ c[i-1]` |
| Cipher.ChainedDeterminesCipher | kasa_control.py:111-117 | a plaintext has exactly one ciphertext satisfying the chaining recurrence |
| Cipher.ChainedDeterminesPlain | kasa_control.py:101-108 | a ciphertext has exactly one plaintext satisfying the chaining recurrence |
| Cipher.EncodeIffChained | kasa_control.py:111-117 | `c == Encode(p)` if and only if `c` and `p` satisfy the recurrence |
| Cipher.DecodeIffChained | kasa_control.py:101-108 | `p == Decode(c)` if and only if `c` and `p` satisfy the recurrence |
| Cipher.DecodeEncode | kasa_control.py:101-117 | `decode(encode(x)) == x` for every byte string, including the empty one and bytes of 0x80 and above |
| Cipher.EncodeDecode | kasa_control.py:101-117 | `encode(decode(y)) == y` for every byte string: the two are mutual inverses |
| Cipher.EncodePrefix | kasa_control.py:111-117 | the ciphertext of a prefix of a message is the same prefix of the message's ciphertext |
| Cipher.KnownVectors | kasa_control.py:97-117 | the empty string maps to itself; `{}` (7B 7D) encodes to D0 AD and back |
| Cipher.EncodeBytes | kasa_control.py:111-117 | the `encode` loop returns `Encode(a)` and satisfies the recurrence |
| Cipher.DecodeBytes | kasa_control.py:101-108 | the `decode` loop returns `Decode(a)` and satisfies the recurrence |
| Framing.Frame | kasa_control.py:218-219 | a frame is the fixed 4-byte prefix, whatever the payload length, then the ciphertext unchanged |
| Framing.Unframe | kasa_control.py:227 | `raw[4:]`: a reply of at least 4 bytes is any 4 bytes followed by the result; at most 4 bytes give the empty body |
| Framing.UnframeAnyHeader | kasa_control.py:227 | unframing drops any four leading bytes without checking them |
| Framing.UnframeFrame | kasa_control.py:218-227 | dropping the first 4 bytes of a sent frame gives back the ciphertext |
| Framing.FrameUnframe | kasa_control.py:218-227 | a received frame that starts with the prefix is rebuilt exactly from its body |
| Framing.UnframeShort | kasa_control.py:227 | a reply of at most 4 bytes decodes to the empty text |
| Framing.ReadFramed | kasa_control.py:218-227 | the body of a sent frame is `encode(payload)`, and decoding it recovers the payload |
| Framing.ReadDeviceReply | kasa_control.py:226-227 | a reply framed with any 4-byte header and encrypted with the cipher decodes to the text the plug sent |
| Framing.BuildRequest | kasa_control.py:218-219 | the sent bytes are exactly `[00,00,00,23] ++ encode(payload)` and decode back to the payload |
| Framing.ReadReply | kasa_control.py:226-227 | the recovered text is `decode(received[4:])`: 4 bytes shorter than the reply, or empty |
| Commands.FromName | kasa_control.py:192-210 | a word selects a command exactly when it is one of the twelve choices; the selected command has that word, and `alias` carries the alias text |
| Commands.DefaultAliasCommand | kasa_control.py:190 | without `-a`, the `alias` word sends `set_dev_alias.alias = "hs110"` |
| Commands.NameRoundTrip | kasa_control.py:192-210 | each command is selected by its own word (with its alias, for `alias`) |
| Commands.Payload | kasa_control.py:119-181 | the object each handler stores under its namespace is a dict whose only key is the command's operation (`set_relay_state`, `get_sysinfo`, ...) |
| Commands.EmeterAsWrittenRaises | kasa_control.py:138-140 | Commands.PayloadAsWritten is the handlers' object as written: for `emeter` it raises NameError for `null` instead of yielding the corrected payload |
| Commands.SingleNamespace | kasa_control.py:119-181 | each command sets exactly one top-level key, one of `system`, `cnCloud`, `emeter` |
| Commands.RelayCommands | kasa_control.py:142-151 | `on`/`off` give `system.set_relay_state.state` = 1/0 |
| Commands.LedCommands | kasa_control.py:153-162 | `led_on`/`led_off` give `system.set_led_off.off` = 0/1 (inverted) |
| Commands.DelayCommands | kasa_control.py:119-125 | `reset`/`reboot` give `delay` 1 |
| Commands.AliasCommand | kasa_control.py:165-169 | `alias` carries the alias text unchanged in `system.set_dev_alias.alias` |
| Commands.SysinfoCommands | kasa_control.py:172-181 | `state` and `info` send the same `system.get_sysinfo: null` request |
| Commands.BindCommand | kasa_control.py:132-136 | `bind` sends the fixed placeholder credentials under `cnCloud.bind` |
| Commands.UnbindCommand | kasa_control.py:127-130 | `unbind` sends `cnCloud.unbind: null` |
| Commands.EmeterCommand | kasa_control.py:138-140 | the corrected `emeter` sends `emeter.get_realtime: null` |
| Commands.RequestsDistinct | kasa_control.py:119-181 | two commands send the same request if and only if they are equal or both are in {`state`, `info`} |
| Commands.Invocation.constructor | kasa_control.py:92-93 | the pending command starts empty and `info` false |
| Commands.Invocation.ResetCmd | kasa_control.py:119-121 | stores the reset object under `system`, nothing else changes |
| Commands.Invocation.RebootCmd | kasa_control.py:123-125 | stores the reboot object under `system`, nothing else changes |
| Commands.Invocation.UnbindCmd | kasa_control.py:127-130 | stores the unbind object under `cnCloud`, nothing else changes |
| Commands.Invocation.BindCmd | kasa_control.py:132-136 | stores the bind object under `cnCloud` and returns false |
| Commands.Invocation.EmeterCmd | kasa_control.py:138-140 | stores the corrected `get_realtime: null` object under `emeter` |
| Commands.Invocation.OnCmd | kasa_control.py:142-145 | stores `set_relay_state.state = 1` under `system` and returns false |
| Commands.Invocation.OffCmd | kasa_control.py:148-151 | stores `set_relay_state.state = 0` under `system` and returns false |
| Commands.Invocation.LedOnCmd | kasa_control.py:153-156 | stores `set_led_off.off = 0` under `system` and returns false |
| Commands.Invocation.LedOffCmd | kasa_control.py:159-162 | stores `set_led_off.off = 1` under `system` and returns false |
| Commands.Invocation.AliasCmd | kasa_control.py:165-169 | stores the alias object under `system` and returns false |
| Commands.Invocation.InfoCmd | kasa_control.py:172-176 | sets `info`, stores the sysinfo query under `system` and returns false |
| Commands.Invocation.StateCmd | kasa_control.py:179-181 | stores the sysinfo query under `system` and returns true |
| Commands.Invocation.Dispatch | kasa_control.py:210-211 | runs the handler of the command (with the corrected `emeter` handler): one key written, `info` set only by `info`, state flag true only for `state` |
| Commands.Prepare | kasa_control.py:92-93 | with the corrected `emeter` handler, from the initial globals, one handler leaves exactly one top-level key; the state flag is set only for `state` and `info` only for `info` |
| JsonValue.GetPath | kasa_control.py:235 | the chained subscription `v[k1][k2]...`: the empty path gives `v`; subscribing a non-dict raises TypeError; only KeyError and TypeError can arise |
| Interpret.EqualsOne | kasa_control.py:235 | Python's `== 1` on a decoded value: true for 1 and `true`; its use is stated by Interpret.ExitCodeTable |
| Interpret.Echoes | kasa_control.py:231 | `debug or info`; stated per command by Interpret.EchoOfCommand |
| Interpret.Finish | kasa_control.py:227-242 | only a parsed reply is echoed or gives an exit code; that code is at most 2, and 0 whenever the state flag is unset |
| Interpret.ExitCode | kasa_control.py:234-242 | the exit code is always 0, 1 or 2 |
| Interpret.ExitCodeTable | kasa_control.py:234-240 | 0 exactly without the state flag; with it, 1 exactly when `relay_state == 1`, 2 for any other value, and an exception when the key path is missing |
| Interpret.StateReply | kasa_control.py:234-240 | a state query against a reply reporting relay state `r` exits with 1 when `r` is 1, otherwise 2 |
| Interpret.StateReplyMissing | kasa_control.py:235 | a reply without `system` makes the state query raise KeyError |
| Interpret.ExitCodeOfCommand | kasa_control.py:211-240 | with the corrected `emeter` handler, every command but `state` exits with 0 whatever the parsed reply; `state` never does |
| Interpret.EchoOfCommand | kasa_control.py:231-232 | the reply is echoed exactly when debugging or when the command is `info` |
| Interpret.FinishUnparsed | kasa_control.py:227-232 | a reply that does not parse is never echoed and the process ends in that very exception |
| Interpret.Run | kasa_control.py:210-242 | one run with the corrected `emeter` handler: the echo decision, exit 0 for every command but `state` and the relay exit code for `state` on a parsed reply, and the parse exception otherwise |

## Left out

- Commands.Invocation.Dispatch, Commands.Prepare, Interpret.ExitCodeOfCommand and Interpret.Run describe the program with the corrected `emeter` handler. As written, `emeter` raises NameError inside `state = func()` (kasa_control.py:140, 211), so that run sends nothing and never reaches `sys.exit`. Only Commands.PayloadAsWritten, with Commands.EmeterAsWrittenRaises, describes that behaviour.
- Socket work (kasa_control.py:221-226): connecting, sending, and the single bounded `recv(8096)` are network I/O. The received bytes are a parameter of `Framing.ReadReply`. Truncation at 8096 bytes and short reads are not modelled.
- Argument parsing (kasa_control.py:184-208) is library glue: the `-d`, `-H` and `-a` options. The alias default `"hs110"` is the constant `Commands.DefaultAlias`. Of parsing, only the twelve command choices are modelled, by `Commands.FromName`.
- The `getattr` lookup of the handler by name (kasa_control.py:210) is replaced by an exhaustive match in `Commands.Invocation.Dispatch`.
- JSON serialisation and parsing (`json.dumps`/`json.loads`, kasa_control.py:214, 227, 232) are library calls. Commands and replies are value trees, and the cipher works on opaque byte strings. The parse result of the reply is a parameter of `Interpret.Finish`, and the `indent=1` layout is not modelled.
- A reply text that is not JSON makes `json.loads` raise ValueError (kasa_control.py:227); the model receives that parse failure as `Err(ValueError)` rather than deriving it from the text. This includes the empty text that a reply of at most 4 bytes decodes to (Framing.UnframeShort).
- JSON numbers are integers only. A floating-point `relay_state` of `1.0`, which Python also treats as equal to 1, is not modelled.
- Console output and `sys.exit` (kasa_control.py:216, 229-242) are I/O. Only the echo decision and the chosen exit code or exception are modelled. The "Power ON"/"Power OFF" lines go with exit codes 1 and 2.
- Python exits with status 1 on an uncaught exception. That status is not modelled: an exception is the `Err` of `Interpret.Outcome.exit`.
- Python 2 `str`-as-bytes details of `chr`/`ord` are not modelled: bytes are `bv8` directly.

## Findings

| source | as written | input that shows it | evidently intended | confidence | as-written member | corrected member |
|---|---|---|---|---|---|---|
| kasa_control.py:140 | `command["emeter"] = {"get_realtime":null}` uses `null`, which is not a Python name, so the handler raises NameError and the command is never sent | command word `emeter` | `{"get_realtime": None}`, serialised as `{"emeter": {"get_realtime": null}}` | high (not executed) | Commands.PayloadAsWritten, shown by Commands.EmeterAsWrittenRaises | Commands.Payload and Commands.Invocation.EmeterCmd, shown by Commands.EmeterCommand |
