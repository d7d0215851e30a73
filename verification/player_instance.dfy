/** JMPlayerInstance: one connected (or offline-administered) identity with its
    own permission tree, its role list, its telemetry cache, its wire form and
    its permission file. */
module PlayerInstance {
  import opened Permission
  import opened RoleList
  import opened Persistence
  import opened Engine
  import opened Telemetry
  import opened Wire

  /** The collaborators an operation consults: the engine, the role registry,
      the permission-tree operations and the file-name constants. */
  datatype Env = Env(game: Game, registry: Registry, tree: TreeOps, consts: Constants)

  class JMPlayerInstance {
    var rootPermission: Tree
    var roles: seq<string>
    var playerObject: Option<Entity>
    var dataLastUpdated: int
    var name: string
    var guid: string
    var steam64Id: string
    var snapshot: Snapshot
    /** The role list of the player's serialized record (JMPlayerSerialize). */
    var playerFileRoles: seq<string>

    /** The role list never holds a name twice. */
    ghost predicate Valid()
      reads this
    {
      NoDuplicates(roles)
    }

    /** The fields the telemetry throttle reads and writes. */
    function Cached(): (r: TelemetryState)
      reads this
    {
      TelemetryState(playerObject, dataLastUpdated, snapshot)
    }

    /** What OnSend puts on the wire. */
    function Outgoing(tree: TreeOps): (r: Message)
      reads this
    {
      Message(guid, steam64Id, name, tree.serialize(rootPermission), roles, snapshot)
    }

    /** The file system after Save, given the files before it. */
    function SavedFiles(env: Env, files: map<string, seq<string>>): (r: map<string, seq<string>>)
      reads this
    {
      if env.game.isServer then files[PermissionFile(env.consts, guid) := env.tree.serialize(rootPermission)]
      else files
    }

    /** A server takes the identity from the connection; an offline mission
        uses the offline identity; otherwise the identity stays empty. The
        tree is a fresh root and the role list is empty. */
    constructor (identity: Option<PlayerIdentity>, game: Game, consts: Constants)
      ensures Valid()
      ensures identity.Some? && game.isServer ==>
        guid == identity.value.id && steam64Id == identity.value.plainId && name == identity.value.name
      ensures !(identity.Some? && game.isServer) && game.isMissionOffline ==>
        guid == consts.offlineGuid && steam64Id == consts.offlineSteam && name == consts.offlineName
      ensures !(identity.Some? && game.isServer) && !game.isMissionOffline ==>
        guid == "" && steam64Id == "" && name == ""
      ensures rootPermission == [] && roles == [] && playerFileRoles == []
      ensures playerObject == None && dataLastUpdated == 0 && snapshot == EmptySnapshot
    {
      playerObject := None;
      if identity.Some? && game.isServer {
        guid := identity.value.id;
        steam64Id := identity.value.plainId;
        name := identity.value.name;
      } else if game.isMissionOffline {
        guid := consts.offlineGuid;
        steam64Id := consts.offlineSteam;
        name := consts.offlineName;
      } else {
        guid, steam64Id, name := "", "", "";
      }
      rootPermission := [];
      roles := [];
      dataLastUpdated := 0;
      snapshot := EmptySnapshot;
      playerFileRoles := [];
    }

    method MakeFake(gid: string, sid: string, nid: string)
      modifies this`guid, this`steam64Id, this`name
      ensures guid == gid && steam64Id == sid && name == nid
    {
      guid := gid;
      steam64Id := sid;
      name := nid;
    }

    /** Whether a live player entity is bound; without one the telemetry
        cache is never refreshed in multiplayer. */
    predicate CanSendData()
      reads this
      ensures !CanSendData() ==> forall game: Game :: game.isMultiplayer ==> Refreshed(game, Cached()) == Cached()
    {
      playerObject.Some?
    }

    /** Refreshes the telemetry cache when it is due. */
    method Update(game: Game)
      modifies this`playerObject, this`dataLastUpdated, this`snapshot
      ensures Cached() == Refreshed(game, old(Cached()))
    {
      if game.isServer && game.time - dataLastUpdated >= RefreshInterval {
        if !game.isMultiplayer {
          playerObject := game.localPlayer;
        }
        if playerObject.Some? {
          dataLastUpdated := game.time;
          snapshot := game.telemetry(playerObject.value);
        }
      }
    }

    // Permissions

    /** Adds every serialized path of another tree with the default type. */
    method CopyPermissions(copy: Tree, tree: TreeOps)
      modifies this`rootPermission
      ensures rootPermission == old(rootPermission) + Inherits(tree.serialize(copy))
    {
      var data := tree.serialize(copy);
      for i := 0 to |data|
        invariant rootPermission == old(rootPermission) + Inherits(data[..i])
      {
        AddPermission(data[i], INHERIT);
        InheritsStep(old(rootPermission), data, i);
      }
      assert data[..|data|] == data;
    }

    method ClearPermissions()
      modifies this`rootPermission
      ensures rootPermission == []
    {
      rootPermission := [];
    }

    /** Replaces the tree by one holding exactly `permissions`, then saves. */
    method LoadPermissions(permissions: seq<string>, env: Env, disk: Disk)
      modifies this`rootPermission, this`playerFileRoles, disk
      ensures rootPermission == Inherits(permissions)
      ensures disk.files == SavedFiles(env, old(disk.files))
      ensures playerFileRoles == if env.game.isServer then roles else old(playerFileRoles)
    {
      ClearPermissions();
      for i := 0 to |permissions|
        invariant rootPermission == Inherits(permissions[..i])
        invariant disk.files == old(disk.files) && playerFileRoles == old(playerFileRoles)
      {
        AddPermission(permissions[i], INHERIT);
        InheritsStep([], permissions, i);
      }
      assert permissions[..|permissions|] == permissions;
      Save(env, disk);
    }

    method AddPermission(permission: string, permType: PermType)
      modifies this`rootPermission
      ensures rootPermission == old(rootPermission) + [Grant(permission, permType)]
    {
      rootPermission := rootPermission + [Grant(permission, permType)];
    }

    /** The own tree's type for a path, without consulting roles. When the
        own tree does not grant the path and this type is DISALLOW, the access
        decision is a refusal under every registry, whatever the roles. */
    function GetRawPermissionType(permission: string, tree: TreeOps): (r: PermType)
      reads this
      ensures !tree.has(rootPermission, permission).granted && r == DISALLOW ==>
        forall registry: Registry :: !Permitted(tree.has(rootPermission, permission), roles, registry, permission)
    {
      tree.has(rootPermission, permission).permType
    }

    /** The access decision: the own tree first, then the roles in order. */
    method HasPermission(permission: string, tree: TreeOps, registry: Registry) returns (r: bool)
      ensures r == Permitted(tree.has(rootPermission, permission), roles, registry, permission)
      ensures r && !tree.has(rootPermission, permission).granted ==>
        GetRawPermissionType(permission, tree) != DISALLOW
    {
      var own := tree.has(rootPermission, permission);
      if own.granted {
        return true;
      }
      if own.permType == DISALLOW {
        return false;
      }
      var j := 0;
      while j < |roles|
        invariant 0 <= j <= |roles|
        invariant forall k :: 0 <= k < j ==> !registry.rolePermission(roles[k], permission).granted
      {
        if registry.rolePermission(roles[j], permission).granted {
          return true;
        }
        j := j + 1;
      }
      return false;
    }

    // Roles

    /** Appends a role the registry knows and the list does not hold yet. */
    method AddRole(role: string, registry: Registry)
      requires Valid()
      modifies this`roles
      ensures Valid()
      ensures roles == if role in registry.knownRoles && role !in old(roles)
                       then old(roles) + [role] else old(roles)
    {
      if role !in registry.knownRoles {
        return;
      }
      if role !in roles {
        roles := roles + [role];
      }
    }

    /** Whether the role is held: some position of the list holds it. */
    predicate HasRole(role: string)
      reads this
      ensures HasRole(role) <==> exists i :: 0 <= i < |roles| && roles[i] == role
    {
      role in roles
    }

    /** Empties the list and re-adds "everyone". */
    method ClearRoles(registry: Registry)
      modifies this`roles
      ensures Valid()
      ensures roles == Cleared(registry.knownRoles)
      ensures HasRole(EVERYONE) <==> EVERYONE in registry.knownRoles
    {
      roles := [];
      AddRole(EVERYONE, registry);
    }

    /** Replaces the role list by "everyone" and the known roles of `rs`, then saves. */
    method LoadRoles(rs: seq<string>, env: Env, disk: Disk)
      modifies this`roles, this`playerFileRoles, disk
      ensures Valid()
      ensures roles == Admit(Cleared(env.registry.knownRoles), rs, env.registry.knownRoles)
      ensures disk.files == SavedFiles(env, old(disk.files))
      ensures playerFileRoles == if env.game.isServer then roles else old(playerFileRoles)
    {
      var known := env.registry.knownRoles;
      ClearRoles(env.registry);
      for i := 0 to |rs|
        invariant Valid()
        invariant Admit(roles, rs[i..], known) == Admit(Cleared(known), rs, known)
        invariant disk.files == old(disk.files) && playerFileRoles == old(playerFileRoles)
      {
        assert rs[i..][0] == rs[i] && rs[i..][1..] == rs[i + 1..];
        AddRole(rs[i], env.registry);
      }
      Save(env, disk);
    }

    // Wire

    /** Writes identity, permissions, roles, position, orientation and health. */
    method OnSend(ctx: WriteContext, tree: TreeOps)
      modifies ctx
      ensures ctx.written == old(ctx.written) + Encode(Outgoing(tree))
    {
      ctx.Write(Str(guid));
      ctx.Write(Str(steam64Id));
      ctx.Write(Str(name));
      OnSendPermissions(ctx, tree);
      OnSendPosition(ctx);
      OnSendOrientation(ctx);
      OnSendHealth(ctx);
    }

    /** Reads what OnSend writes, in the same order, into this instance. */
    method OnRecieve(ctx: ReadContext, registry: Registry)
      modifies this`guid, this`steam64Id, this`name, this`rootPermission, this`roles, this`snapshot, ctx
      ensures Valid()
      ensures var (m, next) := Decode(ctx.data, old(ctx.cursor), old(guid), old(steam64Id), old(name), old(snapshot));
        && guid == m.guid && steam64Id == m.steam64Id && name == m.name
        && rootPermission == Inherits(m.permissions)
        && roles == Admit(Cleared(registry.knownRoles), m.roles, registry.knownRoles)
        && snapshot == m.snapshot
        && ctx.cursor == next
    {
      ghost var data, p0, s0 := ctx.data, ctx.cursor, snapshot;
      guid := ctx.ReadString(guid);
      steam64Id := ctx.ReadString(steam64Id);
      name := ctx.ReadString(name);
      ghost var p3 := ctx.cursor;
      OnRecievePermissions(ctx, registry);
      ghost var lists := DecodePermissions(data, p3);
      OnRecievePosition(ctx);
      OnRecieveOrientation(ctx);
      ghost var s7, p7 := snapshot, ctx.cursor;
      assert s7 == s0.(position := ReadVec(data, lists.2, s0.position).0,
                       orientation := ReadVec(data, ReadVec(data, lists.2, s0.position).1, s0.orientation).0);
      OnRecieveHealth(ctx);
      assert (snapshot, ctx.cursor) == DecodeHealth(data, p7, s7);
    }

    method OnSendPermissions(ctx: WriteContext, tree: TreeOps)
      modifies ctx
      ensures ctx.written == old(ctx.written) + [StrArray(tree.serialize(rootPermission)), StrArray(roles)]
    {
      var permissions := tree.serialize(rootPermission);
      ctx.Write(StrArray(permissions));
      ctx.Write(StrArray(roles));
    }

    /** Rebuilds the tree from the received paths and the role list from the
        received names, both starting from scratch. */
    method OnRecievePermissions(ctx: ReadContext, registry: Registry)
      modifies this`rootPermission, this`roles, ctx
      ensures Valid()
      ensures var (permissions, rs, next) := DecodePermissions(ctx.data, old(ctx.cursor));
        && rootPermission == Inherits(permissions)
        && roles == Admit(Cleared(registry.knownRoles), rs, registry.knownRoles)
        && ctx.cursor == next
    {
      var permissions := ctx.ReadStringArray([]);
      var rs := ctx.ReadStringArray([]);
      ghost var next := ctx.cursor;

      ClearPermissions();
      for i := 0 to |permissions|
        invariant rootPermission == Inherits(permissions[..i])
        invariant ctx.cursor == next
      {
        AddPermission(permissions[i], INHERIT);
        InheritsStep([], permissions, i);
      }
      assert permissions[..|permissions|] == permissions;

      var known := registry.knownRoles;
      ClearRoles(registry);
      for j := 0 to |rs|
        invariant Valid()
        invariant Admit(roles, rs[j..], known) == Admit(Cleared(known), rs, known)
        invariant rootPermission == Inherits(permissions)
        invariant ctx.cursor == next
      {
        assert rs[j..][0] == rs[j] && rs[j..][1..] == rs[j + 1..];
        AddRole(rs[j], registry);
      }
    }

    method OnSendPosition(ctx: WriteContext)
      modifies ctx
      ensures ctx.written == old(ctx.written) + [Vec(snapshot.position)]
    {
      ctx.Write(Vec(snapshot.position));
    }

    method OnRecievePosition(ctx: ReadContext)
      modifies this`snapshot, ctx
      ensures var (v, next) := ReadVec(ctx.data, old(ctx.cursor), old(snapshot).position);
        snapshot == old(snapshot).(position := v) && ctx.cursor == next
    {
      var v := ctx.ReadVector(snapshot.position);
      snapshot := snapshot.(position := v);
    }

    method OnSendOrientation(ctx: WriteContext)
      modifies ctx
      ensures ctx.written == old(ctx.written) + [Vec(snapshot.orientation)]
    {
      ctx.Write(Vec(snapshot.orientation));
    }

    method OnRecieveOrientation(ctx: ReadContext)
      modifies this`snapshot, ctx
      ensures var (v, next) := ReadVec(ctx.data, old(ctx.cursor), old(snapshot).orientation);
        snapshot == old(snapshot).(orientation := v) && ctx.cursor == next
    {
      var v := ctx.ReadVector(snapshot.orientation);
      snapshot := snapshot.(orientation := v);
    }

    method OnSendHealth(ctx: WriteContext)
      modifies ctx
      ensures ctx.written == old(ctx.written) + EncodeHealth(snapshot)
    {
      ctx.Write(Float(snapshot.health));
      ctx.Write(Float(snapshot.blood));
      ctx.Write(Float(snapshot.shock));
      ctx.Write(Int(snapshot.bloodStatType));
      ctx.Write(Float(snapshot.energy));
      ctx.Write(Float(snapshot.water));
      ctx.Write(Float(snapshot.heatComfort));
      ctx.Write(Float(snapshot.wet));
      ctx.Write(Float(snapshot.tremor));
      ctx.Write(Float(snapshot.stamina));
      ctx.Write(Int(snapshot.lifeSpanState));
      ctx.Write(Bool(snapshot.bloodyHands));
      ctx.Write(Bool(snapshot.godMode));
      ctx.Write(Bool(snapshot.invisibility));
    }

    method OnRecieveHealth(ctx: ReadContext)
      modifies this`snapshot, ctx
      ensures (snapshot, ctx.cursor) == DecodeHealth(ctx.data, old(ctx.cursor), old(snapshot))
    {
      var health := ctx.ReadReal(snapshot.health);
      snapshot := snapshot.(health := health);
      var blood := ctx.ReadReal(snapshot.blood);
      snapshot := snapshot.(blood := blood);
      var shock := ctx.ReadReal(snapshot.shock);
      snapshot := snapshot.(shock := shock);
      var bloodStatType := ctx.ReadInteger(snapshot.bloodStatType);
      snapshot := snapshot.(bloodStatType := bloodStatType);
      var energy := ctx.ReadReal(snapshot.energy);
      snapshot := snapshot.(energy := energy);
      var water := ctx.ReadReal(snapshot.water);
      snapshot := snapshot.(water := water);
      var heatComfort := ctx.ReadReal(snapshot.heatComfort);
      snapshot := snapshot.(heatComfort := heatComfort);
      var wet := ctx.ReadReal(snapshot.wet);
      snapshot := snapshot.(wet := wet);
      var tremor := ctx.ReadReal(snapshot.tremor);
      snapshot := snapshot.(tremor := tremor);
      var stamina := ctx.ReadReal(snapshot.stamina);
      snapshot := snapshot.(stamina := stamina);
      var lifeSpanState := ctx.ReadInteger(snapshot.lifeSpanState);
      snapshot := snapshot.(lifeSpanState := lifeSpanState);
      var bloodyHands := ctx.ReadBoolean(snapshot.bloodyHands);
      snapshot := snapshot.(bloodyHands := bloodyHands);
      var godMode := ctx.ReadBoolean(snapshot.godMode);
      snapshot := snapshot.(godMode := godMode);
      var invisibility := ctx.ReadBoolean(snapshot.invisibility);
      snapshot := snapshot.(invisibility := invisibility);
    }

    // Persistence

    /** On the server: copies the roles into the player record and writes the
        serialized tree, one path per line, to the GUID permission file. */
    method Save(env: Env, disk: Disk)
      modifies this`playerFileRoles, disk
      ensures disk.files == SavedFiles(env, old(disk.files))
      ensures playerFileRoles == if env.game.isServer then roles else old(playerFileRoles)
    {
      if !env.game.isServer {
        return;
      }
      var permissions := env.tree.serialize(rootPermission);
      playerFileRoles := roles;
      var file := PermissionFile(env.consts, guid);
      disk.OpenForWrite(file);
      for i := 0 to |permissions|
        invariant disk.files == old(disk.files)[file := permissions[..i]]
        invariant playerFileRoles == roles
      {
        assert permissions[..i + 1] == permissions[..i] + [permissions[i]];
        disk.FPrintln(file, permissions[i]);
      }
      assert permissions[..|permissions|] == permissions;
    }

    /** Adds the lines of `filename` before its first empty line, each with
        the default type; false, adding nothing, when the file does not exist. */
    method ReadPermissions(filename: string, disk: Disk) returns (ok: bool)
      modifies this`rootPermission
      ensures ok == (filename in disk.files)
      ensures !ok ==> rootPermission == old(rootPermission)
      ensures ok ==> rootPermission == old(rootPermission) + Inherits(LinesUntilBlank(disk.files[filename]))
    {
      if !disk.FileExist(filename) {
        return false;
      }
      var lines := disk.files[filename];
      var data: seq<string> := [];
      var n := 0;
      while FGets(lines, n) > 0
        invariant 0 <= n <= |lines|
        invariant data == lines[..n]
        invariant forall k :: 0 <= k < n ==> lines[k] != ""
        decreases |lines| - n
      {
        data := data + [lines[n]];
        n := n + 1;
      }
      LinesUntilBlankStopsAt(lines, n);

      for i := 0 to |data|
        invariant rootPermission == old(rootPermission) + Inherits(data[..i])
      {
        AddPermission(data[i], INHERIT);
        InheritsStep(old(rootPermission), data, i);
      }
      assert data[..|data|] == data;
      return true;
    }

    /** The fallback chain of Load: reads the first existing file among the
        GUID file, its backup copy, the Steam64 file and its backup copy, and
        deletes the file read when it was not the GUID file. */
    method ReadFirstPermissionFile(c: Constants, disk: Disk)
      modifies this`rootPermission, disk
      ensures rootPermission == old(rootPermission) + Inherits(Recovered(old(disk.files), Candidates(c, guid, steam64Id)))
      ensures disk.files == Migrated(old(disk.files), Candidates(c, guid, steam64Id))
    {
      var cands := Candidates(c, guid, steam64Id);
      var current, currentBackup, legacy, legacyBackup := cands[0], cands[1], cands[2], cands[3];
      ghost var files := disk.files;

      var ok := ReadPermissions(current, disk);
      if !ok {
        ok := ReadPermissions(currentBackup, disk);
        if ok {
          assert FirstReadable(files, cands) == 1 by { ChainPosition(files, cands); }
          disk.DeleteFile(currentBackup);
        } else {
          ok := ReadPermissions(legacy, disk);
          if ok {
            assert FirstReadable(files, cands) == 2 by { ChainPosition(files, cands); }
            disk.DeleteFile(legacy);
          } else {
            ok := ReadPermissions(legacyBackup, disk);
            if ok {
              assert FirstReadable(files, cands) == 3 by { ChainPosition(files, cands); }
              disk.DeleteFile(legacyBackup);
            } else {
              assert FirstReadable(files, cands) == 4 by { ChainPosition(files, cands); }
            }
          }
        }
      } else {
        assert FirstReadable(files, cands) == 0 by { ChainPosition(files, cands); }
      }
    }

    /** On the mission host: refreshes telemetry, adds the roles of the player
        record, reads the first permission file of the fallback chain (GUID,
        GUID backup, Steam64, Steam64 backup), deletes it when it was not the
        GUID file, and saves. */
    method Load(env: Env, disk: Disk, storedRoles: seq<string>)
      requires Valid()
      modifies this, disk
      ensures Valid()
      ensures guid == old(guid) && steam64Id == old(steam64Id) && name == old(name)
      ensures !env.game.isMissionHost ==> unchanged(this) && unchanged(disk)
      ensures env.game.isMissionHost ==> Cached() == Refreshed(env.game, old(Cached()))
      ensures env.game.isMissionHost ==> roles == Admit(old(roles), storedRoles, env.registry.knownRoles)
      ensures env.game.isMissionHost ==>
        rootPermission == old(rootPermission) + Inherits(Recovered(old(disk.files), Candidates(env.consts, guid, steam64Id)))
      ensures env.game.isMissionHost ==>
        disk.files == SavedFiles(env, Migrated(old(disk.files), Candidates(env.consts, guid, steam64Id)))
      ensures env.game.isMissionHost ==>
        playerFileRoles == if env.game.isServer then roles else storedRoles
    {
      if !env.game.isMissionHost {
        return;
      }
      Update(env.game);

      playerFileRoles := storedRoles;
      var known := env.registry.knownRoles;
      ghost var roles0 := roles;
      for j := 0 to |playerFileRoles|
        invariant Valid()
        invariant Admit(roles, storedRoles[j..], known) == Admit(roles0, storedRoles, known)
        invariant disk.files == old(disk.files) && rootPermission == old(rootPermission)
        invariant Cached() == Refreshed(env.game, old(Cached()))
        invariant guid == old(guid) && steam64Id == old(steam64Id) && name == old(name)
        invariant playerFileRoles == storedRoles
      {
        assert storedRoles[j..][0] == storedRoles[j] && storedRoles[j..][1..] == storedRoles[j + 1..];
        AddRole(playerFileRoles[j], env.registry);
      }

      ReadFirstPermissionFile(env.consts, disk);
      Save(env, disk);
    }
  }

  /** A full resynchronisation: the stream one instance writes with OnSend,
      read by another with OnRecieve, gives the receiver the sender's
      identity and snapshot, a tree rebuilt from the sender's serialized
      paths, and the registry-known roles of the sender after "everyone". */
  method Resync(sender: JMPlayerInstance, receiver: JMPlayerInstance, tree: TreeOps, registry: Registry)
    modifies receiver`guid, receiver`steam64Id, receiver`name, receiver`rootPermission, receiver`roles, receiver`snapshot
    ensures receiver.Valid()
    ensures receiver.guid == old(sender.guid) && receiver.steam64Id == old(sender.steam64Id)
    ensures receiver.name == old(sender.name)
    ensures receiver.snapshot == old(sender.snapshot)
    ensures receiver.rootPermission == Inherits(tree.serialize(old(sender.rootPermission)))
    ensures receiver.roles == Admit(Cleared(registry.knownRoles), old(sender.roles), registry.knownRoles)
  {
    var out := new WriteContext();
    sender.OnSend(out, tree);
    var m := sender.Outgoing(tree);
    var ctx := new ReadContext(out.written);
    assert [] + Encode(m) + [] == out.written;
    DecodeEncode([], m, [], receiver.guid, receiver.steam64Id, receiver.name, receiver.snapshot);
    receiver.OnRecieve(ctx, registry);
  }
}
