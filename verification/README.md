# JMPlayerInstance, modelled in Dafny

This project models `JMPlayerInstance`, the per-player object of the
Community Online Tools permissions framework. One instance stands for one
connected (or offline-administered) identity. It holds:

- the identity: GUID, Steam64 id and display name;
- its own permission tree;
- a duplicate-free, insertion-ordered list of role names;
- a throttled telemetry cache: position, orientation and fourteen
  health and stat values;
- the role list of its serialized player record.

The model covers what the class does with that state:

- the access decision (`HasPermission`): the own tree first, then the
  roles in order;
- role admission and clearing, where "everyone" is re-added on every clear
  when the registry knows it;
- rebuilding, extending and copying the permission tree;
- the telemetry throttle (`Update`);
- the wire form (`OnSend*` and `OnRecieve*`), including the full round trip;
- the on-disk side: the file-name sanitiser, line reading of a permission
  file, the four-step fallback chain of `Load` with its one-time migration,
  and `Save`.

Three collaborators are kept abstract.

- **The permission tree (`JMPermission`).** A tree is the sequence of
  additions made to it since it was created. Its query and its flattening
  into paths are functions the caller supplies (`Permission.TreeOps`).
  Nothing is claimed about how the tree resolves inheritance.
- **The role registry.** Modelled as the set of known role names plus a
  function giving each role's answer for a path (`Permission.Registry`).
- **The engine.** The mission flags, the game time, the local player and
  the readings of each player entity form a value (`Engine.Game`). The file
  system is a `Persistence.Disk` object holding a map from file name to the
  file's lines. The parameter streams are `Wire.WriteContext` and
  `Wire.ReadContext`.

Modules, one per file:

- `Permission` (permission.dfy): permission types, tree additions and the
  resolution policy `Permitted`.
- `RoleList` (role_list.dfy): the role-admission fold `Admit` and its
  reference definition `FirstOccurrences`.
- `Persistence` (persistence.dfy): `FileReadyStripName`, the fallback
  candidates, line reading, and the `Disk` class.
- `Engine` (engine.dfy): engine values.
- `Telemetry` (telemetry.dfy): the refresh function `Refreshed`.
- `Wire` (wire.dfy): the encoding, the decoding, the round-trip lemma and
  the stream contexts.
- `PlayerInstance` (player_instance.dfy): the class `JMPlayerInstance` and
  its methods, each proved against the functions above.

`HasRole`, `CanSendData` and `GetRawPermissionType` are single-expression
queries. They are modelled as functions on the instance. What they mean for
the rest of the class is stated in `HasPermission`'s, `ClearRoles`'s and
their own contracts.

How the model reads the code:

- **Reading a permission file.** The read loop of `ReadPermissions`
  continues while `FGets` returns a positive character count
  (JMPlayerInstance.c:391). The model assumes the engine's `FGets` returns
  the number of characters of the line it read, so 0 for an empty line, and
  -1 at the end of the file (`Persistence.FGets`). Under that assumption the
  loop ends at the end of the file or at the first empty line, whichever
  comes first, and only the lines before the first empty line are added
  (`Persistence.LinesUntilBlank`).
- **The plain Steam64 file.** When `Load` recovers permissions from the
  plain Steam64 file (not a backup-suffixed one), it deletes that file. The
  model keeps this (`Persistence.FallbackToSteamFile`).

## Model

| member | source | states |
|---|---|---|
| Permission.OwnGrantIsFinal | JM/COT/scripts/4_World/CommunityOnlineTools/permissions-framework/JMPlayerInstance.c:204-210 | when the own tree grants the path the decision is true, and it is the same under any role list and any registry |
| Permission.OwnDenyIsFinal | JM/COT/scripts/4_World/CommunityOnlineTools/permissions-framework/JMPlayerInstance.c:213-216 | when the own tree refuses with type DISALLOW the decision is false whatever the roles say |
| Permission.RoleDenyDoesNotBlockLaterRoles | JM/COT/scripts/4_World/CommunityOnlineTools/permissions-framework/JMPlayerInstance.c:218-230 | an earlier role answering DISALLOW does not stop a later role from granting the path |
| Permission.DeferredToRoles | JM/COT/scripts/4_World/CommunityOnlineTools/permissions-framework/JMPlayerInstance.c:218-232 | when the own tree defers, the decision is false exactly when every assigned role refuses the path |
| Permission.InheritsAppend | JM/COT/scripts/4_World/CommunityOnlineTools/permissions-framework/JMPlayerInstance.c:140-143 | helper for the proofs of the add loops: adding two lists of paths one after the other adds their concatenation |
| PlayerInstance.JMPlayerInstance.HasPermission | JM/COT/scripts/4_World/CommunityOnlineTools/permissions-framework/JMPlayerInstance.c:199-233 | the loop's answer is the resolution policy `Permitted`: own grant, else own DISALLOW refuses, else some role grants; a true answer the own tree did not give implies the raw type is not DISALLOW |
| PlayerInstance.JMPlayerInstance.GetRawPermissionType | JM/COT/scripts/4_World/CommunityOnlineTools/permissions-framework/JMPlayerInstance.c:185-190 | the own tree's type for the path, without roles; when the own tree does not grant the path and this type is DISALLOW, the access decision refuses under every registry |
| RoleList.FirstOccurrences | JM/COT/scripts/4_World/CommunityOnlineTools/permissions-framework/JMPlayerInstance.c:168-177 | reference list of admitted roles: duplicate-free, and a name is in it exactly when it is a registry-known candidate not already held |
| RoleList.AdmitAppendsFirstOccurrences | JM/COT/scripts/4_World/CommunityOnlineTools/permissions-framework/JMPlayerInstance.c:160-163 | repeated AddRole keeps the existing roles in place and appends exactly the first occurrences of the known candidates not yet held, in candidate order |
| RoleList.AdmitKeepsRolesDistinct | JM/COT/scripts/4_World/CommunityOnlineTools/permissions-framework/JMPlayerInstance.c:168-177 | repeated AddRole keeps the list duplicate-free; afterwards a name is held exactly when it was held before or is a known candidate |
| RoleList.LoadedRoles | JM/COT/scripts/4_World/CommunityOnlineTools/permissions-framework/JMPlayerInstance.c:156-166 | after a clear, loading gives "everyone" first (when known) followed by the first occurrences of the other known names, with no duplicates |
| PlayerInstance.JMPlayerInstance.HasRole | JM/COT/scripts/4_World/CommunityOnlineTools/permissions-framework/JMPlayerInstance.c:179-182 | membership in the role list (`Find` returns a non-negative index); its meaning comes from ClearRoles's contract: after a clear, HasRole("everyone") holds exactly when the registry knows it |
| PlayerInstance.JMPlayerInstance.AddRole | JM/COT/scripts/4_World/CommunityOnlineTools/permissions-framework/JMPlayerInstance.c:168-177 | appends the role exactly when the registry knows it and the list lacks it, otherwise leaves the list unchanged; only the role list changes and it stays duplicate-free |
| PlayerInstance.JMPlayerInstance.ClearRoles | JM/COT/scripts/4_World/CommunityOnlineTools/permissions-framework/JMPlayerInstance.c:192-197 | the list becomes ["everyone"] when the registry knows it and [] otherwise; HasRole("everyone") holds exactly when the registry knows it |
| PlayerInstance.JMPlayerInstance.LoadRoles | JM/COT/scripts/4_World/CommunityOnlineTools/permissions-framework/JMPlayerInstance.c:156-166 | the list becomes the admission of the given names after a clear, stays duplicate-free, and the save step runs |
| PlayerInstance.JMPlayerInstance.AddPermission | JM/COT/scripts/4_World/CommunityOnlineTools/permissions-framework/JMPlayerInstance.c:148-154 | records exactly one addition of the path with the given type |
| PlayerInstance.JMPlayerInstance.ClearPermissions | JM/COT/scripts/4_World/CommunityOnlineTools/permissions-framework/JMPlayerInstance.c:127-132 | the tree becomes a fresh root with no additions |
| PlayerInstance.JMPlayerInstance.CopyPermissions | JM/COT/scripts/4_World/CommunityOnlineTools/permissions-framework/JMPlayerInstance.c:116-125 | adds, in order and with the default type, every path the other tree serializes to, keeping what the tree already held |
| PlayerInstance.JMPlayerInstance.LoadPermissions | JM/COT/scripts/4_World/CommunityOnlineTools/permissions-framework/JMPlayerInstance.c:134-146 | the tree holds exactly the given paths with the default type, and the save step runs |
| Persistence.RemoveAll | JM/COT/scripts/4_World/CommunityOnlineTools/permissions-framework/JMPlayerInstance.c:369-372 | one Replace with an empty string: the result holds exactly the characters of the input other than the removed one, and is no longer |
| Persistence.FileReadyStripName | JM/COT/scripts/4_World/CommunityOnlineTools/permissions-framework/JMPlayerInstance.c:367-375 | the result holds none of backslash, slash, '=' and '+', and every other character of the name occurs in it |
| Persistence.StripKeepsSafeCharsInOrder | JM/COT/scripts/4_World/CommunityOnlineTools/permissions-framework/JMPlayerInstance.c:367-375 | the four removals equal a single pass keeping the safe characters in their original order |
| Persistence.StripIsIdempotent | JM/COT/scripts/4_World/CommunityOnlineTools/permissions-framework/JMPlayerInstance.c:367-375 | stripping twice equals stripping once |
| Persistence.LinesUntilBlank | JM/COT/scripts/4_World/CommunityOnlineTools/permissions-framework/JMPlayerInstance.c:391-394 | the collected lines are a prefix of the file, none is empty, and the line after them, if any, is empty |
| Persistence.LinesUntilBlankStopsAt | JM/COT/scripts/4_World/CommunityOnlineTools/permissions-framework/JMPlayerInstance.c:391-394 | the lines before a position are what the loop collects when they are non-empty and the position is the end or an empty line |
| Persistence.LinesUntilBlankOfFullFile | JM/COT/scripts/4_World/CommunityOnlineTools/permissions-framework/JMPlayerInstance.c:391-394 | a file without empty lines is read completely; one with an empty line is read only partly |
| PlayerInstance.JMPlayerInstance.ReadPermissions | JM/COT/scripts/4_World/CommunityOnlineTools/permissions-framework/JMPlayerInstance.c:377-404 | returns true exactly when the file exists; when it does not, nothing is added; when it does, the lines before the first empty line are added in order with the default type |
| Persistence.FirstReadable | JM/COT/scripts/4_World/CommunityOnlineTools/permissions-framework/JMPlayerInstance.c:420-431 | the position of the first existing candidate: it exists and every earlier candidate is missing, or no candidate exists |
| Persistence.MigrationDeletesOnlyTheFallbackRead | JM/COT/scripts/4_World/CommunityOnlineTools/permissions-framework/JMPlayerInstance.c:420-432 | the fallback chain deletes at most one file: the first existing candidate, and only when it is not the first candidate; that is the file whose lines were recovered, never the GUID file, nothing is deleted when the GUID file exists, and every other file keeps its content |
| Persistence.FallbackToSteamFile | JM/COT/scripts/4_World/CommunityOnlineTools/permissions-framework/JMPlayerInstance.c:425-427 | when only the plain Steam64 file exists among the first three candidates, its lines are recovered and that file is deleted |
| Persistence.NoFileNoChange | JM/COT/scripts/4_World/CommunityOnlineTools/permissions-framework/JMPlayerInstance.c:420-432 | when no candidate exists, nothing is recovered and nothing is deleted |
| PlayerInstance.JMPlayerInstance.ReadFirstPermissionFile | JM/COT/scripts/4_World/CommunityOnlineTools/permissions-framework/JMPlayerInstance.c:420-432 | the four-step chain adds the lines of the first existing candidate and deletes that file exactly when it was not the GUID file |
| PlayerInstance.JMPlayerInstance.Save | JM/COT/scripts/4_World/CommunityOnlineTools/permissions-framework/JMPlayerInstance.c:341-365 | on the server the record's roles become the role list and the GUID permission file holds the serialized tree one path per line; on a client nothing changes |
| PlayerInstance.JMPlayerInstance.Load | JM/COT/scripts/4_World/CommunityOnlineTools/permissions-framework/JMPlayerInstance.c:406-435 | off the mission host nothing changes; on it telemetry is refreshed, the record's roles are admitted, the fallback chain runs, the save step runs, and the identity is kept |
| Persistence.Disk.DeleteFile | JM/COT/scripts/4_World/CommunityOnlineTools/permissions-framework/JMPlayerInstance.c:424 | removes exactly the named file |
| Persistence.Disk.OpenForWrite | JM/COT/scripts/4_World/CommunityOnlineTools/permissions-framework/JMPlayerInstance.c:353 | creates or truncates the named file |
| Persistence.Disk.FPrintln | JM/COT/scripts/4_World/CommunityOnlineTools/permissions-framework/JMPlayerInstance.c:360 | appends one line to the named file |
| PlayerInstance.JMPlayerInstance.CanSendData | JM/COT/scripts/4_World/CommunityOnlineTools/permissions-framework/JMPlayerInstance.c:75-78 | when no player entity is bound, no multiplayer Update changes the telemetry cache: player object, timestamp and snapshot all stay |
| Telemetry.UnboundNeverRefreshes | JM/COT/scripts/4_World/CommunityOnlineTools/permissions-framework/JMPlayerInstance.c:82-91 | in a multiplayer game an instance with no player object is never refreshed: Update changes nothing |
| PlayerInstance.JMPlayerInstance.Update | JM/COT/scripts/4_World/CommunityOnlineTools/permissions-framework/JMPlayerInstance.c:80-114 | the cached player object, timestamp and snapshot become `Refreshed` of the old ones |
| Telemetry.RefreshOnlyWhenDue | JM/COT/scripts/4_World/CommunityOnlineTools/permissions-framework/JMPlayerInstance.c:82-112 | timestamp or snapshot change only on the server, once 100 time units have passed, with a player object; then the timestamp is the current time and the snapshot the entity's current readings |
| Telemetry.ClientNeverRefreshes | JM/COT/scripts/4_World/CommunityOnlineTools/permissions-framework/JMPlayerInstance.c:82 | on a client Update changes nothing |
| Telemetry.SecondUpdateWithinIntervalKeepsSnapshot | JM/COT/scripts/4_World/CommunityOnlineTools/permissions-framework/JMPlayerInstance.c:82-113 | after a refresh, an update less than 100 units later keeps the timestamp and the snapshot |
| Telemetry.SecondUpdateAfterIntervalRefreshes | JM/COT/scripts/4_World/CommunityOnlineTools/permissions-framework/JMPlayerInstance.c:82-112 | in multiplayer with a bound player, an update at least 100 units after a refresh takes the latest readings and the current time |
| PlayerInstance.JMPlayerInstance.constructor | JM/COT/scripts/4_World/CommunityOnlineTools/permissions-framework/JMPlayerInstance.c:43-61 | the identity comes from the connection on a server, from the offline constants in an offline mission, and is empty otherwise; the tree is a fresh root and the role list is empty |
| PlayerInstance.JMPlayerInstance.MakeFake | JM/COT/scripts/4_World/CommunityOnlineTools/permissions-framework/JMPlayerInstance.c:68-73 | sets exactly the three identity fields |
| PlayerInstance.JMPlayerInstance.OnSend | JM/COT/scripts/4_World/CommunityOnlineTools/permissions-framework/JMPlayerInstance.c:235-245 | appends exactly the encoding of the instance: identity, serialized paths, roles, position, orientation, health block |
| PlayerInstance.JMPlayerInstance.OnRecieve | JM/COT/scripts/4_World/CommunityOnlineTools/permissions-framework/JMPlayerInstance.c:247-257 | the instance takes the decoded identity and snapshot, a tree holding exactly the decoded paths, and the admission of the decoded roles after a clear; the cursor ends after the decoded values |
| PlayerInstance.JMPlayerInstance.OnSendPermissions | JM/COT/scripts/4_World/CommunityOnlineTools/permissions-framework/JMPlayerInstance.c:259-266 | appends the serialized paths, then the role list |
| PlayerInstance.JMPlayerInstance.OnRecievePermissions | JM/COT/scripts/4_World/CommunityOnlineTools/permissions-framework/JMPlayerInstance.c:268-283 | the tree holds exactly the received paths with the default type; the role list is "everyone" (when known) then the known first occurrences of the received names |
| PlayerInstance.JMPlayerInstance.OnSendPosition | JM/COT/scripts/4_World/CommunityOnlineTools/permissions-framework/JMPlayerInstance.c:285-288 | appends the position |
| PlayerInstance.JMPlayerInstance.OnRecievePosition | JM/COT/scripts/4_World/CommunityOnlineTools/permissions-framework/JMPlayerInstance.c:290-293 | overwrites only the position with the value read |
| PlayerInstance.JMPlayerInstance.OnSendOrientation | JM/COT/scripts/4_World/CommunityOnlineTools/permissions-framework/JMPlayerInstance.c:295-298 | appends the orientation |
| PlayerInstance.JMPlayerInstance.OnRecieveOrientation | JM/COT/scripts/4_World/CommunityOnlineTools/permissions-framework/JMPlayerInstance.c:300-303 | overwrites only the orientation with the value read |
| PlayerInstance.JMPlayerInstance.OnSendHealth | JM/COT/scripts/4_World/CommunityOnlineTools/permissions-framework/JMPlayerInstance.c:305-321 | appends the fourteen health and stat values in their fixed order |
| PlayerInstance.JMPlayerInstance.OnRecieveHealth | JM/COT/scripts/4_World/CommunityOnlineTools/permissions-framework/JMPlayerInstance.c:323-339 | reads the fourteen values back in the same order into the snapshot, leaving position and orientation alone |
| Wire.DecodeHealthAt | JM/COT/scripts/4_World/CommunityOnlineTools/permissions-framework/JMPlayerInstance.c:305-339 | reading the health block from where it was written restores all fourteen values, leaves the target's position and orientation as they were, and consumes exactly fourteen values |
| Wire.DecodeEncode | JM/COT/scripts/4_World/CommunityOnlineTools/permissions-framework/JMPlayerInstance.c:235-257 | decoding an encoded message from its start, whatever precedes or follows it and whatever the receiver held, restores every field and consumes exactly the message |
| PlayerInstance.Resync | JM/COT/scripts/4_World/CommunityOnlineTools/permissions-framework/JMPlayerInstance.c:235-339 | OnSend by one instance, then OnRecieve of that stream by another, gives the receiver the sender's identity and snapshot, a tree of the sender's serialized paths and the sender's known roles after "everyone"; only the fields OnRecieve reads into may change, so the receiver keeps its player object, timestamp and player record |
| Wire.WriteContext.Write | JM/COT/scripts/4_World/CommunityOnlineTools/permissions-framework/JMPlayerInstance.c:237-239 | appends one value to the stream |
| Wire.ReadContext.ReadString | JM/COT/scripts/4_World/CommunityOnlineTools/permissions-framework/JMPlayerInstance.c:249-251 | a string read: the next value and an advanced cursor when it is a string, otherwise the target and cursor unchanged |
| Wire.ReadContext.ReadStringArray | JM/COT/scripts/4_World/CommunityOnlineTools/permissions-framework/JMPlayerInstance.c:273-274 | the same for a string array |
| Wire.ReadContext.ReadVector | JM/COT/scripts/4_World/CommunityOnlineTools/permissions-framework/JMPlayerInstance.c:292 | the same for a vector |
| Wire.ReadContext.ReadReal | JM/COT/scripts/4_World/CommunityOnlineTools/permissions-framework/JMPlayerInstance.c:325-327 | the same for a float |
| Wire.ReadContext.ReadInteger | JM/COT/scripts/4_World/CommunityOnlineTools/permissions-framework/JMPlayerInstance.c:328 | the same for an int |
| Wire.ReadContext.ReadBoolean | JM/COT/scripts/4_World/CommunityOnlineTools/permissions-framework/JMPlayerInstance.c:336-338 | the same for a bool |

## Left out

- The internals of `JMPermission` are not modelled: path splitting, inheritance, the serialization format, and the tree's own `AddPermission`. `JMPermission` is not part of this model. A tree is known only through its additions, and its query and flattening are supplied functions.
- The storage of the role registry is not modelled. The registry is given as a set of known names and a per-role answer function.
- `JMPlayerSerialize` is not part of this model: its file format, its `Save`, and whatever its `Load` does to the instance. `Load` takes the roles of the player record as a parameter. `Save` models the record only as its role list.
- RPC registration and dispatch in `CommunityOnlineTools.c` are left out: it is network plumbing over an opaque transport.
- A permission file that exists but fails to open (`OpenFile` returning a negative handle in `ReadPermissions`, or 0 in `Save`) is not modelled. The engine's file handles are not part of this model, so opening an existing file always succeeds here.
- Wire reads never fail. `OnRecieve` ignores the result of `ctx.Read`, so no abort path is modelled. What the engine does when the next value has the wrong kind is not visible. The model assumes the target keeps its value and nothing is consumed.
- The engine's `FGets` is not part of this model. It is assumed to return the character count of the line read, so 0 for an empty line, and -1 at the end of the file. The stop at the first empty line in `ReadPermissions` rests on that assumption.
- The game clock and `m_DataLastUpdated` are 32-bit `int` in the source; the model uses unbounded integers, so the clock is modelled as never wrapping around.
- The ping fields are left out: they are never assigned.
- The trivial getters and `DebugPrint` are left out: they only return fields or print.
- Float, vector and engine telemetry values are modelled as opaque reals and records: the code only copies them.
- The sixteen telemetry fields are grouped into one `Engine.Snapshot` value with renamed fields; the wire order is kept.
- A `Save` that runs before the player record exists is not modelled. `Save` writes into the player record, which only `JMPlayerSerialize.Load` assigns. `LoadPermissions` or `LoadRoles` can reach `Save` before `Load` has run. In the model the record's role list is simply overwritten.
- PlayerInstance.JMPlayerInstance.AddRole: requires the ghost invariant `Valid()` (the role list is duplicate-free). The source states no precondition. The constructor, `ClearRoles` and every role operation establish and keep the invariant.
- PlayerInstance.JMPlayerInstance.Load: requires `Valid()` for the same reason as `AddRole`.
- PlayerInstance.JMPlayerInstance.HasPermission: the registry answer is a pure function of role and path. The source's `HasRolePermission` also writes a type out-parameter, which `HasPermission` never reads afterwards.
