/** The wire form of a player instance: the values OnSend writes, in order,
    the reads OnRecieve makes, and the write and read contexts. */
module Wire {
  import opened Engine

  /** One value in a parameter stream. */
  datatype Value =
    | Str(s: string)
    | StrArray(strs: seq<string>)
    | Vec(v: Vector)
    | Float(f: real)
    | Int(n: int)
    | Bool(b: bool)

  /** Everything one player message carries. */
  datatype Message = Message(
    guid: string, steam64Id: string, name: string,
    permissions: seq<string>, roles: seq<string>, snapshot: Snapshot)

  /** The values OnSendHealth writes. */
  function EncodeHealth(s: Snapshot): (r: seq<Value>)
  {
    [ Float(s.health), Float(s.blood), Float(s.shock), Int(s.bloodStatType),
      Float(s.energy), Float(s.water), Float(s.heatComfort), Float(s.wet),
      Float(s.tremor), Float(s.stamina), Int(s.lifeSpanState),
      Bool(s.bloodyHands), Bool(s.godMode), Bool(s.invisibility) ]
  }

  /** The values OnSend writes: identity, serialized permissions, roles,
      position, orientation, then the health block. */
  function Encode(m: Message): (r: seq<Value>)
  {
    [Str(m.guid), Str(m.steam64Id), Str(m.name)]
    + [StrArray(m.permissions), StrArray(m.roles)]
    + [Vec(m.snapshot.position)]
    + [Vec(m.snapshot.orientation)]
    + EncodeHealth(m.snapshot)
  }

  // One typed read at `pos`: the value and the next position when the value
  // there has the expected kind; otherwise the target keeps `cur` and nothing
  // is consumed.

  function ReadStr(data: seq<Value>, pos: nat, cur: string): (r: (string, nat))
  {
    if pos < |data| && data[pos].Str? then (data[pos].s, pos + 1) else (cur, pos)
  }

  function ReadStrArray(data: seq<Value>, pos: nat, cur: seq<string>): (r: (seq<string>, nat))
  {
    if pos < |data| && data[pos].StrArray? then (data[pos].strs, pos + 1) else (cur, pos)
  }

  function ReadVec(data: seq<Value>, pos: nat, cur: Vector): (r: (Vector, nat))
  {
    if pos < |data| && data[pos].Vec? then (data[pos].v, pos + 1) else (cur, pos)
  }

  function ReadFloat(data: seq<Value>, pos: nat, cur: real): (r: (real, nat))
  {
    if pos < |data| && data[pos].Float? then (data[pos].f, pos + 1) else (cur, pos)
  }

  function ReadInt(data: seq<Value>, pos: nat, cur: int): (r: (int, nat))
  {
    if pos < |data| && data[pos].Int? then (data[pos].n, pos + 1) else (cur, pos)
  }

  function ReadBool(data: seq<Value>, pos: nat, cur: bool): (r: (bool, nat))
  {
    if pos < |data| && data[pos].Bool? then (data[pos].b, pos + 1) else (cur, pos)
  }

  /** The reads OnRecieveHealth makes, starting from the snapshot `s`. */
  function DecodeHealth(data: seq<Value>, pos: nat, s: Snapshot): (r: (Snapshot, nat))
  {
    var health := ReadFloat(data, pos, s.health);
    var blood := ReadFloat(data, health.1, s.blood);
    var shock := ReadFloat(data, blood.1, s.shock);
    var bloodStatType := ReadInt(data, shock.1, s.bloodStatType);
    var energy := ReadFloat(data, bloodStatType.1, s.energy);
    var water := ReadFloat(data, energy.1, s.water);
    var heatComfort := ReadFloat(data, water.1, s.heatComfort);
    var wet := ReadFloat(data, heatComfort.1, s.wet);
    var tremor := ReadFloat(data, wet.1, s.tremor);
    var stamina := ReadFloat(data, tremor.1, s.stamina);
    var lifeSpanState := ReadInt(data, stamina.1, s.lifeSpanState);
    var bloodyHands := ReadBool(data, lifeSpanState.1, s.bloodyHands);
    var godMode := ReadBool(data, bloodyHands.1, s.godMode);
    var invisibility := ReadBool(data, godMode.1, s.invisibility);
    (s.(health := health.0, blood := blood.0, shock := shock.0, bloodStatType := bloodStatType.0,
        energy := energy.0, water := water.0, heatComfort := heatComfort.0, wet := wet.0,
        tremor := tremor.0, stamina := stamina.0, lifeSpanState := lifeSpanState.0,
        bloodyHands := bloodyHands.0, godMode := godMode.0, invisibility := invisibility.0),
     invisibility.1)
  }

  /** The reads OnRecievePermissions makes: the serialized paths, then the
      role names, each into a fresh empty list. */
  function DecodePermissions(data: seq<Value>, pos: nat): (r: (seq<string>, seq<string>, nat))
  {
    var permissions := ReadStrArray(data, pos, []);
    var roles := ReadStrArray(data, permissions.1, []);
    (permissions.0, roles.0, roles.1)
  }

  /** The reads OnRecieve makes, starting from the receiver's identity and snapshot. */
  function Decode(data: seq<Value>, pos: nat, guid: string, steam64Id: string, name: string, s: Snapshot): (r: (Message, nat))
  {
    var g := ReadStr(data, pos, guid);
    var id := ReadStr(data, g.1, steam64Id);
    var n := ReadStr(data, id.1, name);
    var lists := DecodePermissions(data, n.1);
    var position := ReadVec(data, lists.2, s.position);
    var orientation := ReadVec(data, position.1, s.orientation);
    var health := DecodeHealth(data, orientation.1, s.(position := position.0, orientation := orientation.0));
    (Message(g.0, id.0, n.0, lists.0, lists.1, health.0), health.1)
  }

  /** Reading the health block back from where it was written restores its
      fourteen values, keeps the position and orientation the target held,
      and consumes exactly the block. */
  lemma DecodeHealthAt(data: seq<Value>, pos: nat, s: Snapshot, cur: Snapshot)
    requires pos + 14 <= |data| && data[pos..pos + 14] == EncodeHealth(s)
    ensures DecodeHealth(data, pos, cur) ==
      (cur.(health := s.health, blood := s.blood, shock := s.shock, bloodStatType := s.bloodStatType,
            energy := s.energy, water := s.water, heatComfort := s.heatComfort, wet := s.wet,
            tremor := s.tremor, stamina := s.stamina, lifeSpanState := s.lifeSpanState,
            bloodyHands := s.bloodyHands, godMode := s.godMode, invisibility := s.invisibility),
       pos + 14)
  {
    assert ReadFloat(data, pos, cur.health) == (s.health, pos + 1) by {
      assert data[pos..pos + 14][0] == data[pos];
    }
    assert ReadFloat(data, pos + 1, cur.blood) == (s.blood, pos + 2) by {
      assert data[pos..pos + 14][1] == data[pos + 1];
    }
    assert ReadFloat(data, pos + 2, cur.shock) == (s.shock, pos + 3) by {
      assert data[pos..pos + 14][2] == data[pos + 2];
    }
    assert ReadInt(data, pos + 3, cur.bloodStatType) == (s.bloodStatType, pos + 4) by {
      assert data[pos..pos + 14][3] == data[pos + 3];
    }
    assert ReadFloat(data, pos + 4, cur.energy) == (s.energy, pos + 5) by {
      assert data[pos..pos + 14][4] == data[pos + 4];
    }
    assert ReadFloat(data, pos + 5, cur.water) == (s.water, pos + 6) by {
      assert data[pos..pos + 14][5] == data[pos + 5];
    }
    assert ReadFloat(data, pos + 6, cur.heatComfort) == (s.heatComfort, pos + 7) by {
      assert data[pos..pos + 14][6] == data[pos + 6];
    }
    assert ReadFloat(data, pos + 7, cur.wet) == (s.wet, pos + 8) by {
      assert data[pos..pos + 14][7] == data[pos + 7];
    }
    assert ReadFloat(data, pos + 8, cur.tremor) == (s.tremor, pos + 9) by {
      assert data[pos..pos + 14][8] == data[pos + 8];
    }
    assert ReadFloat(data, pos + 9, cur.stamina) == (s.stamina, pos + 10) by {
      assert data[pos..pos + 14][9] == data[pos + 9];
    }
    assert ReadInt(data, pos + 10, cur.lifeSpanState) == (s.lifeSpanState, pos + 11) by {
      assert data[pos..pos + 14][10] == data[pos + 10];
    }
    assert ReadBool(data, pos + 11, cur.bloodyHands) == (s.bloodyHands, pos + 12) by {
      assert data[pos..pos + 14][11] == data[pos + 11];
    }
    assert ReadBool(data, pos + 12, cur.godMode) == (s.godMode, pos + 13) by {
      assert data[pos..pos + 14][12] == data[pos + 12];
    }
    assert ReadBool(data, pos + 13, cur.invisibility) == (s.invisibility, pos + 14) by {
      assert data[pos..pos + 14][13] == data[pos + 13];
    }
  }

  /** Reading back a written message restores every field, whatever values
      the receiver held before, and consumes exactly the written values. */
  lemma DecodeEncode(pre: seq<Value>, m: Message, post: seq<Value>, guid: string, steam64Id: string, name: string, s: Snapshot)
    ensures Decode(pre + Encode(m) + post, |pre|, guid, steam64Id, name, s) == (m, |pre| + |Encode(m)|)
  {
    var e := Encode(m);
    var data := pre + e + post;
    var p := |pre|;
    assert |e| == 21;
    forall k | 0 <= k < 21 ensures data[p + k] == e[k] { }
    assert ReadStr(data, p, guid) == (m.guid, p + 1);
    assert ReadStr(data, p + 1, steam64Id) == (m.steam64Id, p + 2);
    assert ReadStr(data, p + 2, name) == (m.name, p + 3);
    assert DecodePermissions(data, p + 3) == (m.permissions, m.roles, p + 5);
    assert ReadVec(data, p + 5, s.position) == (m.snapshot.position, p + 6);
    assert ReadVec(data, p + 6, s.orientation) == (m.snapshot.orientation, p + 7);
    assert data[p + 7..p + 21] == EncodeHealth(m.snapshot);
    DecodeHealthAt(data, p + 7, m.snapshot,
      s.(position := m.snapshot.position, orientation := m.snapshot.orientation));
  }

  /** The stream a ParamsWriteContext has accumulated. */
  class WriteContext {
    var written: seq<Value>

    constructor ()
      ensures written == []
    {
      written := [];
    }

    method Write(v: Value)
      modifies this
      ensures written == old(written) + [v]
    {
      written := written + [v];
    }
  }

  /** A ParamsReadContext: a fixed stream and a read position. */
  class ReadContext {
    const data: seq<Value>
    var cursor: nat

    constructor (data: seq<Value>)
      ensures this.data == data && cursor == 0
    {
      this.data := data;
      cursor := 0;
    }

    method ReadString(cur: string) returns (v: string)
      modifies this
      ensures (v, cursor) == ReadStr(data, old(cursor), cur)
    {
      v := cur;
      if cursor < |data| && data[cursor].Str? {
        v := data[cursor].s;
        cursor := cursor + 1;
      }
    }

    method ReadStringArray(cur: seq<string>) returns (v: seq<string>)
      modifies this
      ensures (v, cursor) == ReadStrArray(data, old(cursor), cur)
    {
      v := cur;
      if cursor < |data| && data[cursor].StrArray? {
        v := data[cursor].strs;
        cursor := cursor + 1;
      }
    }

    method ReadVector(cur: Vector) returns (v: Vector)
      modifies this
      ensures (v, cursor) == ReadVec(data, old(cursor), cur)
    {
      v := cur;
      if cursor < |data| && data[cursor].Vec? {
        v := data[cursor].v;
        cursor := cursor + 1;
      }
    }

    method ReadReal(cur: real) returns (v: real)
      modifies this
      ensures (v, cursor) == ReadFloat(data, old(cursor), cur)
    {
      v := cur;
      if cursor < |data| && data[cursor].Float? {
        v := data[cursor].f;
        cursor := cursor + 1;
      }
    }

    method ReadInteger(cur: int) returns (v: int)
      modifies this
      ensures (v, cursor) == ReadInt(data, old(cursor), cur)
    {
      v := cur;
      if cursor < |data| && data[cursor].Int? {
        v := data[cursor].n;
        cursor := cursor + 1;
      }
    }

    method ReadBoolean(cur: bool) returns (v: bool)
      modifies this
      ensures (v, cursor) == ReadBool(data, old(cursor), cur)
    {
      v := cur;
      if cursor < |data| && data[cursor].Bool? {
        v := data[cursor].b;
        cursor := cursor + 1;
      }
    }
  }
}
