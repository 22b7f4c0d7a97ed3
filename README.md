# Channel mode +f (message flood protection), modelled in Dafny

This project models InspIRCd's channel mode `+f`, from `src/modules/m_messageflood.cpp`.
The mode limits how many lines one user may send to a channel within a time window.
It has three parts:

- **The mode handler.** It reads a parameter `[*]lines:secs`. A leading `*` means "ban as well as kick".
  It rejects values below 2 lines or 1 second and rewrites the parameter into the canonical form `[*]N:M`.
  It then installs, replaces, keeps or removes the channel's flood settings.
  `ModeSet` gives the canonical form back from the stored settings.
- **The flood counter table (`floodsettings`).** It is a map from user to line count, plus a window end `reset`.
  `addmessage` counts a line and clears every count once the window has ended.
  `shouldkick` tests the limit. `clear` forgets one user.
- **The decision rule (`ProcessMessages`).** Messages from remote users, or ones a restriction override allows, pass.
  Otherwise the line is counted. A user who reaches the limit is cleared, banned when the settings say so, and kicked,
  and the message is blocked.

Modules:

- `CStrings`: the C-string view of a `std::string` (up to the first NUL), `atoi`, and `ConvToStr` on an `int`.
- `FloodParameter`: the parameter datatype, the split at the first `:`, the canonical form, and the round trip between them.
- `FloodCounters`: the counter table as a value (`Window`) with pure specification functions, and the `FloodSettings` class.
  The class updates its fields in place and is proved against those functions.
- `MessageFlood`: the `Channel` class (flood settings slot and stored `+f` parameter), the mode handler, and the decision rule.

The clock `ServerInstance->Time()` is the parameter `now`; see "## Left out" for which `ServerInstance` the counter table actually reads.
Whether the user is local is a boolean input, and so is the answer of the restriction-override hook.
Users are an opaque `User` identity.
The outside actions (the numeric, the bans, the kick) are returned as values: a flag for the numeric and a sequence of `Effect`s.

`Channel.Valid()` is the invariant every operation keeps:

- the stored parameter is the canonical form of the stored settings, or empty when there are none;
- stored settings always have `lines >= 2` and `secs >= 1`;
- every count lies in `1 .. lines-1`.

Two consequences of the code show up in the proofs:

- `Parse(Canonical(p)) == Some(p)`, so the canonical form is injective. With the invariant, the source's string comparison `cur_param == parameter` (line 149) holds exactly when the new settings equal the stored ones. The final `else` at lines 163-166 therefore cannot be reached; the model keeps the branch as written.
- A line that arrives after the window has ended is counted and then cleared with everything else (lines 47-51). It therefore never counts towards the next window and never triggers a kick.

## Model

| member | source | states |
|---|---|---|
| CStrings.CString | src/modules/m_messageflood.cpp:98-100 | the copied buffer is the longest NUL-free prefix of the parameter |
| CStrings.Atoi | src/modules/m_messageflood.cpp:127-128 | atoi yields 0 for a text without any digit |
| CStrings.NatToString | src/modules/m_messageflood.cpp:139 | decimal notation is non-empty, all digits, and has no leading zero |
| CStrings.IntToString | src/modules/m_messageflood.cpp:139 | ConvToStr writes an optional '-' followed only by digits |
| CStrings.DigitsValueOfNatToString | src/modules/m_messageflood.cpp:139 | the value of the digits written for n is n |
| CStrings.AtoiOfIntToString | src/modules/m_messageflood.cpp:127-128 | atoi reads back exactly the int that ConvToStr wrote, for every int, negative ones included |
| FloodParameter.IndexOf | src/modules/m_messageflood.cpp:113-123 | the position found holds ':' and no earlier position does; none is found only when there is no ':' |
| FloodParameter.Parse | src/modules/m_messageflood.cpp:101-128 | no result exactly when the C string has no ':'; ban is set exactly when the parameter starts with '*' |
| FloodParameter.FindColon | src/modules/m_messageflood.cpp:113-123 | the pointer loop that stops at the NUL finds the first ':' of the C string, or none |
| FloodParameter.Canonical | src/modules/m_messageflood.cpp:139 | the canonical parameter starts with '*' exactly when ban is set |
| FloodParameter.ParseAt | src/modules/m_messageflood.cpp:101-128 | for a NUL-free parameter whose first ':' is at k, lines and secs are atoi of the text before and after k, after an optional '*' |
| FloodParameter.ParseCanonical | src/modules/m_messageflood.cpp:139 | reading the canonical parameter gives back exactly the settings it was written from |
| FloodParameter.CanonicalInjective | src/modules/m_messageflood.cpp:147-149 | two settings have the same canonical parameter exactly when they are equal |
| FloodCounters.Added | src/modules/m_messageflood.cpp:36-52 | within the window, the sender's count becomes old+1 (1 if absent), the sender gets an entry, other counts and reset are unchanged; after the window, the table is empty and reset is now+secs |
| FloodCounters.Cleared | src/modules/m_messageflood.cpp:64-71 | only the user's entry is removed, every other count and reset are unchanged, and it is a no-op for an absent user |
| FloodCounters.Step | src/modules/m_messageflood.cpp:218-222 | a line after the window never kicks and empties the table; within the window, other users are untouched, the kick happens exactly when count+1 reaches lines, a kicked user has no entry, and counts stay in 1..lines-1 |
| FloodCounters.Replay | src/modules/m_messageflood.cpp:218-222 | one kick flag per line sent |
| FloodCounters.KickedOnLimitLine | src/modules/m_messageflood.cpp:36-62 | within one window, a user who has sent c lines is kicked on exactly the (lines-c)-th further line and on no earlier one |
| FloodCounters.FloodSettings.constructor | src/modules/m_messageflood.cpp:31-34 | new settings carry the given ban, secs and lines, an empty table, and reset == now + secs |
| FloodCounters.FloodSettings.AddMessage | src/modules/m_messageflood.cpp:36-52 | the table becomes Added of the old table; ban, secs and lines are unchanged |
| FloodCounters.FloodSettings.ShouldKick | src/modules/m_messageflood.cpp:54-62 | true exactly when the user has an entry of at least lines; false for an absent user |
| FloodCounters.FloodSettings.Clear | src/modules/m_messageflood.cpp:64-71 | the table becomes Cleared of the old table; ban, secs and lines are unchanged |
| MessageFlood.Punishment | src/modules/m_messageflood.cpp:223-240 | the actions are, in order, the local ban and the network ban when ban is set, then the kick giving the limit; all actions concern the flooder |
| MessageFlood.Decide | src/modules/m_messageflood.cpp:208-247 | exempt messages pass with no change; DENY exactly when there are actions; a denied user has no entry and gets Punishment; within the window DENY exactly when count+1 reaches lines; after the window PASSTHRU with an empty table; the count bound is kept |
| MessageFlood.ModeSet | src/modules/m_messageflood.cpp:83-90 | reports whether the mode is set; when set, returns a parameter that reads back to the stored settings and equals the channel's stored parameter; otherwise returns the given parameter |
| MessageFlood.ReadParameter | src/modules/m_messageflood.cpp:98-128 | the copy, the scan and the two atoi calls compute Parse of the parameter |
| MessageFlood.Install | src/modules/m_messageflood.cpp:137-143 | fresh settings with the given values and an empty table are stored with their canonical parameter, keeping the channel invariant |
| MessageFlood.SetFlood | src/modules/m_messageflood.cpp:96-177 | no ':' or values out of range: DENY, parameter cleared, numeric sent, channel unchanged; otherwise the parameter becomes canonical, re-applying the stored settings is DENY with nothing changed, and anything else is ALLOW with fresh settings and counters |
| MessageFlood.UnsetFlood | src/modules/m_messageflood.cpp:178-188 | ALLOW exactly when settings existed; afterwards there are none and the stored parameter is empty |
| MessageFlood.OnModeChange | src/modules/m_messageflood.cpp:92-189 | combines the two: removal leaves the parameter alone and sends no numeric; after an allowed set, ModeSet returns (true, the rewritten parameter) |
| MessageFlood.ProcessMessages | src/modules/m_messageflood.cpp:208-247 | without settings: PASSTHRU and no actions; with settings: the new table, result and actions are those of Decide, and the settings are unchanged |
| MessageFlood.OnUserPreMessage | src/modules/m_messageflood.cpp:249-263 | a message to a user passes untouched; a message to a channel is decided as in ProcessMessages |

## Left out

- src/modules/m_spanningtree/treesocket.h is not part of this model. It holds only declarations: the link state machine, capability negotiation, burst, and netsplit handling. None of them has a body to follow.
- The outside calls are not modelled as real effects. These are the numeric 608 (`WriteNumeric`), `SendMode`/`SendModeStr`, and `ServerKickUser`. They appear only as the `invalid` flag and the `SetBan`/`SendBan`/`Kick` effects.
- The ban mask `user->MakeWildHost()` is not modelled. The ban effects name the user instead.
- The counter table's clock is not modelled as written. `floodsettings` reads the time at lines 33, 47 and 50 through its own private member `InspIRCd *ServerInstance` (line 23). That member hides the global `ServerInstance` used at lines 201-231, and no constructor sets it: line 31 sets only `ban`, `secs` and `lines`. As written, every clock read goes through an uninitialised pointer, which is undefined behaviour. The model assumes the global server clock was intended and passes its value in as `now`.
- The deletion of the channel when `ServerKickUser` reports it emptied (lines 237-240) is not modelled; it belongs to the channel table.
- Module registration, `GetVersion` and the extension-item storage are not modelled. The storage is the `flood` field of `Channel`.
- The `FIRST_MOD_RESULT` hook and `IS_LOCAL` are inputs: `restriction` and `isLocal`.
- `MessageFlood.OnUserPreMessage` stands for both `OnUserPreMessage` and `OnUserPreNotice`. The two bodies are identical.
- The copy into a `MAXBUF` buffer is modelled as the NUL cut only, not the truncation to `MAXBUF - 1` characters. Mode parameters come from protocol lines shorter than that buffer.
- CStrings.Atoi: does not model overflow. The C library leaves out-of-range values undefined, and the model reads the digits as an unbounded integer.
- `lines`, `secs`, the counts and `reset` are unbounded integers, not 32-bit `int` and `time_t`. The counts cannot overflow in the source anyway: the invariant keeps each count below `lines`.
- The message `text` that `ProcessMessages` receives is not modelled. The source never reads it.
