# StarDict network client: command encoder and command queue

This project models the client side of the StarDict network protocol as
implemented in `src/lib/stardict_client.cpp`:

- `STARDICT::Cmd::Cmd` turns a command kind and its arguments into one
  newline-terminated protocol line: a fixed lowercase verb, then each argument
  escaped and preceded by one space. With `need_md5` set, REGISTER sends the
  lowercase hex of the password's MD5 digest instead of the password, and
  CHANGE_PASSWD does the same for the new password only. AUTH builds no
  line: it keeps `need_md5`, the user and the password for later.
- `StarDictClient::request_command` writes a command's line to the server and
  returns whether the write succeeded. For AUTH it first builds the line
  `auth <user> <response>`. The response is the hex MD5 of the daemon stamp
  followed directly by the password, or by the password's hex MD5 when
  `need_md5` is set.
- `append_command` and `clean_command` keep the list of pending commands.

Modules:

- `Digests` (digests.dfy): the `"%02x"` formatting of a 16-byte digest, as a
  function `Hex` and as the buffer-writing loop `HexDigest` proved equal to it.
  `Unhex` reads the hex back and shows that no information is lost.
- `Protocol` (protocol.dfy): the command kinds, their verbs and arities. It
  also holds the line grammar: `Compose` builds a line, and `Split` and
  `ParseLine` read one back.
- `Encoder` (encoder.dfy): `Command` has one constructor per kind, each with
  exactly the fields that kind takes. `Line` is the per-kind formatting of the
  constructor. `WireArgs` is the reference table of arguments in wire order.
  `Build` gives the constructed object `Cmd`: `Eager` with its line, or
  `Deferred` with the AUTH fields.
- `Session` (session.dfy): `Resolve` gives the line `request_command` sends.
  The class `StarDictClient` holds the pending list `cmdlist` and the daemon
  stamp.

MD5 and `arg_escape` are called but not defined in the modelled file. Here
they are the two function-valued fields of `Primitives`. Every property is
proved for every choice of them, so both stay uninterpreted. Where a property
needs something of the escaping, the lemma says so in a `requires`, as an
explicit hypothesis:

- `DelimiterFree`: no escaped argument contains a space or a newline.
- `Injective`: different arguments never escape to the same text.

The model proves neither hypothesis about the real routine.

Strings are `seq<char>`, with one character per byte of the C string. MD5
takes a string's bytes and returns a 16-byte `Digest`.

The code leaves these cases to the caller, and so does the model:

- The code never checks for missing arguments: `va_arg` reads whatever was
  passed. The typed `Command` constructors make a missing argument impossible.
- AUTH can be sent before a daemon stamp has arrived. The code then hashes
  whatever the stamp holds, which is empty on a new client. The model does the
  same.
- The escaping scheme and its reversibility are not in the code, so the model
  makes no claim about them.

## Model

| member | source | states |
|---|---|---|
| `Digests.Hex` | src/lib/stardict_client.cpp:48-50 | hex text of n bytes is exactly 2n characters, all in `0-9a-f` |
| `Digests.HexAt` | src/lib/stardict_client.cpp:48-49 | byte i is written at positions 2i and 2i+1, high nibble first |
| `Digests.UnhexHex` | src/lib/stardict_client.cpp:75-77 | reading the hex text back two digits at a time gives the original bytes |
| `Digests.HexInjective` | src/lib/stardict_client.cpp:260-262 | two digests with the same hex text are the same digest |
| `Digests.HexDigest` | src/lib/stardict_client.cpp:249-251 | the loop writing `hex[2*i]` into a 33-character buffer yields exactly `Hex(digest)`, 32 lowercase hex characters |
| `Protocol.Verb` | src/lib/stardict_client.cpp:25-206 | each kind's verb is a non-empty token of lowercase letters and `_`, so it holds no space or newline |
| `Protocol.VerbRoundTrip` | src/lib/stardict_client.cpp:24-207 | each verb names its own kind back |
| `Protocol.VerbsDistinct` | src/lib/stardict_client.cpp:94-194 | no two kinds share a verb |
| `Protocol.ParseCompose` | src/lib/stardict_client.cpp:24-208 | a composed line reads back as the verb followed by exactly its arguments, if no argument holds a space or newline |
| `Encoder.Password` | src/lib/stardict_client.cpp:41-57 | with `need_md5` the password sent is 32 lowercase hex digits that read back as MD5 of the password; without it, the plaintext password |
| `Encoder.WireArgs` | src/lib/stardict_client.cpp:25-207 | each non-AUTH kind has exactly as many arguments as its arity (0, 1, 2 or 3) |
| `Encoder.KindOf` | src/lib/stardict_client.cpp:21 | the `command` tag recorded for each command; it is the AUTH tag exactly for AUTH |
| `Encoder.Line` | src/lib/stardict_client.cpp:24-208 | the line each non-AUTH branch of the constructor formats, newline-terminated; what it contains is stated by LineComposed, LineTokens, RegisterLine and ChangePasswdLine |
| `Encoder.LineComposed` | src/lib/stardict_client.cpp:24-208 | every branch of the constructor formats exactly the kind's verb and its escaped arguments in wire order, newline-terminated |
| `Encoder.LineTokens` | src/lib/stardict_client.cpp:24-208 | if escaping emits no delimiter, every built line splits back into its verb (which names the kind) and exactly its escaped arguments |
| `Encoder.Build` | src/lib/stardict_client.cpp:19-93 | the constructed object carries the command's kind; it is deferred exactly for AUTH, which keeps the raw need_md5/user/passwd; every other kind stores its line |
| `Encoder.AuthDeferred` | src/lib/stardict_client.cpp:89-93 | building AUTH consults neither MD5 nor escaping and stores only the raw fields |
| `Encoder.ArgumentFreeLines` | src/lib/stardict_client.cpp:143-206 | the argument-free kinds send a fixed verb plus newline (such as `getdictmask\n`, `quit\n`) whatever MD5 and the escaping are |
| `Encoder.SingleArgumentLines` | src/lib/stardict_client.cpp:94-194 | a single-argument kind sends `verb + " " + Esc(arg) + "\n"`, and the argument never depends on MD5 |
| `Encoder.RegisterLine` | src/lib/stardict_client.cpp:35-60 | REGISTER reads back as `register`, Esc(user), Esc(password or its MD5 hex), Esc(email); user and email are never hashed |
| `Encoder.ChangePasswdLine` | src/lib/stardict_client.cpp:62-87 | CHANGE_PASSWD reads back as `change_password`, Esc(user), Esc(old password, never hashed), Esc(new password or its MD5 hex) |
| `Session.AuthResponse` | src/lib/stardict_client.cpp:245-262 | the AUTH response is 32 lowercase hex digits reading back as MD5 of the stamp followed directly by P, where P is the password or its MD5 hex |
| `Session.Resolve` | src/lib/stardict_client.cpp:238-278 | a non-AUTH command sends its stored line verbatim; AUTH sends `auth`, Esc(user), Esc(response) composed as a protocol line |
| `Session.AuthTokens` | src/lib/stardict_client.cpp:263-266 | if escaping emits no delimiter, the AUTH line reads back as exactly `auth`, Esc(user), Esc(response) |
| `Session.EagerIgnoresStamp` | src/lib/stardict_client.cpp:274-277 | a built non-AUTH command sends the constructor's line whatever the daemon stamp |
| `Session.AuthStampBinding` | src/lib/stardict_client.cpp:253-266 | with injective escaping, two stamps give the same AUTH line only if MD5 collides on stamp + P, so a new stamp changes the line unless MD5 collides |
| `Session.StarDictClient.constructor` | src/lib/stardict_client.cpp:223-225 | a new client has no pending commands and an empty daemon stamp |
| `Session.StarDictClient.AppendCommand` | src/lib/stardict_client.cpp:231-234 | the pending list becomes the old list with the command added at the tail; earlier entries and their order are unchanged |
| `Session.StarDictClient.RequestCommand` | src/lib/stardict_client.cpp:236-280 | the result is true exactly when writing the resolved line succeeds, for AUTH and non-AUTH kinds alike |
| `Session.StarDictClient.CleanCommand` | src/lib/stardict_client.cpp:282-288 | the pending list is empty afterwards |

## Left out

- MD5 (`MD5Init`/`MD5Update`/`MD5Final`) is a foreign library. It is the uninterpreted field `Primitives.md5`. The two `MD5Update` calls over the stamp and then P are modelled as one digest of the concatenation, which is what MD5's streaming interface computes.
- `arg_escape` is not defined in the modelled file. It is the uninterpreted field `Primitives.escape`. Its reserved characters and its reversibility are not modelled; lemmas that need something of it state `DelimiterFree` or `Injective` as a hypothesis.
- `net_write_str` is socket I/O. It is the parameter `netWrite`, whose result is the write outcome for the line it is given.
- How `cmd_reply.daemonStamp` is filled in belongs to reply parsing, which is not part of this model. The reply-code constants at lines 11-17 belong there too. The stamp is the field `daemonStamp`, which that code assigns.
- Memory management is not modelled: `g_strdup_printf`, `g_strdup`, `g_free` and the destructor at lines 212-221. The destructor at line 218 frees `c->data` through an undeclared `c` instead of `this`. `Session.StarDictClient.CleanCommand` does not model the loop that deletes each entry before the list is cleared; the model only empties the list.
- For AUTH the C++ keeps the caller's `user` and `passwd` pointers (lines 91-92), not copies, and reads them only at send time (lines 247, 258, 264). `Encoder.Build` captures their values at construction, so the model assumes those buffers stay unchanged and alive from construction until the send. The other kinds copy their data into a new string with `g_strdup_printf`, so they do not depend on this.
- `va_arg` dispatch is replaced by the typed `Command` constructors, so reading an argument of the wrong type or count cannot be expressed.
- C strings end at the first NUL (`strlen`). Strings in the model are plain sequences, so a NUL inside an argument or a password is not treated as an end of string.
- The `snprintf`/`sprintf` buffer widths are not modelled. Only the resulting 32-character text and the terminating NUL cell of the buffer are.
- `Encoder.Cmd.Eager` could in principle carry the kind `Auth`, which the C++ would treat as AUTH. `Encoder.Build` never produces such a value. `Session.Resolve` dispatches on the variant.
