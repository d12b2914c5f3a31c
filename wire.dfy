/** The `snapshot` event as it travels from server/src/index.ts to client/src/main.ts and
    RemotesManager.applySnapshot: a JSON object per player, read field by field on arrival.
    The server stores and sends a player's position under the key `pos`; the client reads
    `p.position[0]`, which throws at the first listed player other than the local one, right
    after that player's record has been created. The handler is modelled over the records as
    they arrive, pass by pass up to the first throw, both as written and with a corrected read
    of `pos`. */
module Wire {
  import opened Vectors
  import Server
  import Remotes

  /** A JSON value as it appears in a player record. */
  datatype Field = Text(s: string) | Number(n: int) | Triple(v: Vec3)

  /** A player record: field name to value, as a plain JSON object. */
  type Record = map<string, Field>

  /** The `snapshot` payload. */
  datatype WireSnapshot = WireSnapshot(t: int, players: seq<Record>)

  /** The JSON object the server serialises for a stored player. */
  function Encode(p: Server.Player): Record
  {
    map["id" := Text(p.id), "pos" := Triple(p.pos), "color" := Number(p.color),
        "name" := Text(p.name)]
  }

  /** `Array.from(players.values())` serialised, in order. */
  function Encoded(ps: seq<Server.Player>): seq<Record>
  {
    seq(|ps|, i requires 0 <= i < |ps| => Encode(ps[i]))
  }

  function EncodeSnapshot(msg: Server.SnapshotMsg): WireSnapshot
  {
    WireSnapshot(msg.t, Encoded(msg.players))
  }

  /** The id field of a record, if it has one. */
  function IdOf(w: Record): Option<string>
  {
    if "id" in w && w["id"].Text? then Some(w["id"].s) else None
  }

  /** The record carries the `id`, `color` and `name` the upsert loop reads besides the
      position, with the types the server gives them. */
  predicate Readable(w: Record)
  {
    IdOf(w).Some? && "color" in w && w["color"].Number? && "name" in w && w["name"].Text?
  }

  /** Reading one record, taking the position from the field `positionKey`. Without that field
      `p.position[0]` reads index 0 of `undefined`, which throws a TypeError. The server never
      sends a quaternion, so none is read. */
  function DecodeWith(w: Record, positionKey: string): (r: Option<Remotes.PlayerState>)
    ensures r.Some? <==> Readable(w) && positionKey in w && w[positionKey].Triple?
    ensures r.Some? ==> IdOf(w) == Some(r.value.id) && r.value.color == w["color"].n
  {
    if Readable(w) && positionKey in w && w[positionKey].Triple? then
      Some(Remotes.PlayerState(w["id"].s, w[positionKey].v, None, w["color"].n,
                               w["name"].s))
    else None
  }

  /** The read the client evidently intends: the key the server writes. */
  function Decode(w: Record): Option<Remotes.PlayerState>
  {
    DecodeWith(w, "pos")
  }

  /** The client's view of a server player. */
  function ToState(p: Server.Player): Remotes.PlayerState
  {
    Remotes.PlayerState(p.id, p.pos, None, p.color, p.name)
  }

  /** No record the server sends has a `position` field, though it has every other field the
      client reads. */
  lemma AsWrittenRejects(p: Server.Player)
    ensures Readable(Encode(p)) && IdOf(Encode(p)) == Some(p.id)
    ensures DecodeWith(Encode(p), "position") == None
  {
    assert "position" !in Encode(p);
  }

  /** Reading `pos` recovers exactly what the server stored. */
  lemma DecodeRoundTrip(p: Server.Player)
    ensures Decode(Encode(p)) == Some(ToState(p))
  {
    var w := Encode(p);
    assert "pos" in w && "id" in w && "color" in w && "name" in w;
  }

  // ---------------------------------------------------------------------------------------
  // `applySnapshot` on the records as they arrive

  /** The ids the stale pass keeps: `p.id !== excludeId`, read before the upsert loop starts. */
  function WireIds(players: seq<Record>, self: Option<string>): set<string>
  {
    set i | 0 <= i < |players| && IdOf(players[i]).Some? && self != IdOf(players[i])
      :: IdOf(players[i]).value
  }

  /** Where the upsert loop stands after a pass: it went on, or the pass threw and the records
      are as the throw left them. */
  datatype Outcome = Next(m: map<string, Remotes.Remote>) | Threw(m: map<string, Remotes.Remote>)

  /** `if (p.id === excludeId) continue;` */
  predicate IsLocal(w: Record, self: Option<string>)
  {
    self.Some? && IdOf(w) == self
  }

  /** `if (!this.remotes.has(p.id)) this.remotes.set(p.id, new Remote(p.id, p.color))`. */
  function Created(m: map<string, Remotes.Remote>, id: string, color: int)
    : (r: map<string, Remotes.Remote>)
    ensures id in r && r.Keys == m.Keys + {id}
    ensures id !in m ==> r[id] == Remotes.NewRemote(id, color)
    ensures forall k :: k in m ==> r[k] == m[k]
  {
    if id in m then m else m[id := Remotes.NewRemote(id, color)]
  }

  /** One pass of the upsert loop over a record: the local player is skipped; any other player's
      record is created if it is new, and only then is the position read; a failed read throws,
      a successful one pushes a sample. */
  function Pass(m: map<string, Remotes.Remote>, w: Record, t: int, self: Option<string>,
                positionKey: string): Outcome
  {
    if IsLocal(w, self) then Next(m)
    else if !Readable(w) then Threw(m)
    else
      match DecodeWith(w, positionKey)
      case Some(p) => Next(Remotes.Upsert(m, p, t))
      case None => Threw(Created(m, w["id"].s, w["color"].n))
  }

  /** The upsert loop over the records in order, up to the first pass that throws. */
  function Passes(m: map<string, Remotes.Remote>, ws: seq<Record>, t: int, self: Option<string>,
                  positionKey: string): Outcome
  {
    if |ws| == 0 then Next(m)
    else
      match Passes(m, ws[..|ws| - 1], t, self, positionKey)
      case Threw(m') => Threw(m')
      case Next(m') => Pass(m', ws[|ws| - 1], t, self, positionKey)
  }

  /** The records after the `snapshot` handler: the stale pass over every listed id, then the
      upsert loop, whose progress up to a throw stays. */
  function Handle(m: map<string, Remotes.Remote>, w: WireSnapshot, self: Option<string>,
                  positionKey: string): map<string, Remotes.Remote>
  {
    Passes(Remotes.Pruned(m, WireIds(w.players, self)), w.players, w.t, self, positionKey).m
  }

  /** The handler as written, reading `p.position`. */
  function AsWrittenApply(m: map<string, Remotes.Remote>, w: WireSnapshot, self: Option<string>)
    : map<string, Remotes.Remote>
  {
    Handle(m, w, self, "position")
  }

  /** Once a pass has thrown, later records change nothing. */
  lemma {:induction false} ThrewStays(m: map<string, Remotes.Remote>, ws: seq<Record>, t: int,
                                      self: Option<string>, positionKey: string, n: nat, n': nat)
    requires n <= n' <= |ws| && Passes(m, ws[..n], t, self, positionKey).Threw?
    ensures Passes(m, ws[..n'], t, self, positionKey) == Passes(m, ws[..n], t, self, positionKey)
  {
    if n < n' {
      ThrewStays(m, ws, t, self, positionKey, n, n' - 1);
      assert ws[..n'][..n' - 1] == ws[..n' - 1];
    }
  }

  /** `k` is the first entry of a player list that is not the local player (or the length). */
  predicate FirstOtherAt(ps: seq<Server.Player>, self: Option<string>, k: nat)
  {
    k <= |ps| && (forall i :: 0 <= i < k ==> self == Some(ps[i].id))
    && (k < |ps| ==> self != Some(ps[k].id))
  }

  function FirstOther(ps: seq<Server.Player>, self: Option<string>): (k: nat)
    ensures FirstOtherAt(ps, self, k)
  {
    if |ps| == 0 then 0
    else if self == Some(ps[0].id) then
      var k := FirstOther(ps[1..], self);
      assert forall i :: 1 <= i < k + 1 ==> ps[i] == ps[1..][i - 1];
      k + 1
    else 0
  }

  /** As written, the loop over a server snapshot skips the local player and throws at the
      first other one, just after creating that player's record; nothing is ever pushed. */
  lemma {:induction false} AsWrittenPasses(m: map<string, Remotes.Remote>, ps: seq<Server.Player>,
                                           t: int, self: Option<string>, k: nat)
    requires FirstOtherAt(ps, self, k)
    ensures k == |ps| ==> Passes(m, Encoded(ps), t, self, "position") == Next(m)
    ensures k < |ps| ==> Passes(m, Encoded(ps), t, self, "position")
                         == Threw(Created(m, ps[k].id, ps[k].color))
  {
    var ws := Encoded(ps);
    if |ps| > 0 {
      var n := |ps| - 1;
      assert ws[..n] == Encoded(ps[..n]);
      assert ws[n] == Encode(ps[n]);
      AsWrittenRejects(ps[n]);
      if k < n {
        AsWrittenPasses(m, ps[..n], t, self, k);
        assert ps[..n][k] == ps[k];
      } else {
        AsWrittenPasses(m, ps[..n], t, self, n);
      }
    }
  }

  /** As written, applying a server snapshot runs the stale pass and then tracks the first
      listed player other than the local one, under a new record if it was not tracked yet. */
  lemma AsWrittenTracksFirstOther(m: map<string, Remotes.Remote>, msg: Server.SnapshotMsg,
                                  self: Option<string>, k: nat)
    requires FirstOtherAt(msg.players, self, k)
    ensures var kept := Remotes.Pruned(m, WireIds(Encoded(msg.players), self));
            var r := AsWrittenApply(m, EncodeSnapshot(msg), self);
            (k == |msg.players| ==> r == kept)
            && (k < |msg.players| ==> r == Created(kept, msg.players[k].id, msg.players[k].color))
  {
    var kept := Remotes.Pruned(m, WireIds(Encoded(msg.players), self));
    AsWrittenPasses(kept, msg.players, msg.t, self, k);
  }

  /** The consequence: as written, a snapshot adds at most one player, with no samples, and
      leaves every record it keeps as it was; a client whose records have no samples keeps
      it that way, and `update` skips every record, so each cube stays at its initial pose. */
  lemma AsWrittenFrozen(m: map<string, Remotes.Remote>, msg: Server.SnapshotMsg,
                        self: Option<string>, renderTime: real,
                        slerp: (Quat, Quat, real) -> Quat)
    ensures var r := AsWrittenApply(m, EncodeSnapshot(msg), self);
            && (forall id :: id in r && id in m ==> r[id] == m[id])
            && (forall id :: id in r && id !in m ==> r[id].samples == [])
            && (forall a, b :: a in r && a !in m && b in r && b !in m ==> a == b)
    ensures (forall id :: id in m ==> m[id].samples == []) ==>
            var r := AsWrittenApply(m, EncodeSnapshot(msg), self);
            forall id :: id in r ==> Remotes.Render(r[id], renderTime, slerp) == r[id]
  {
    var k := FirstOther(msg.players, self);
    AsWrittenTracksFirstOther(m, msg, self, k);
    if k < |msg.players| {
      var ws := Encoded(msg.players);
      AsWrittenRejects(msg.players[k]);
      assert ws[k] == Encode(msg.players[k]);
      assert msg.players[k].id in WireIds(ws, self);
    }
  }

  // ---------------------------------------------------------------------------------------
  // The corrected read of `pos`

  /** The corrected reading of a whole snapshot: every record decoded, all or nothing. */
  function DecodeAll(players: seq<Record>): (r: Option<seq<Remotes.PlayerState>>)
    ensures r.Some? ==> |r.value| == |players|
  {
    if |players| == 0 then Some([])
    else
      match (Decode(players[0]), DecodeAll(players[1..]))
      case (Some(p), Some(rest)) => Some([p] + rest)
      case _ => None
  }

  /** A whole snapshot decodes exactly when every record does, entry by entry. */
  lemma {:induction false} DecodeAllPointwise(ws: seq<Record>, ps: seq<Remotes.PlayerState>)
    ensures DecodeAll(ws) == Some(ps)
            <==> |ps| == |ws| && forall i :: 0 <= i < |ws| ==> Decode(ws[i]) == Some(ps[i])
  {
    if |ws| > 0 && |ps| > 0 {
      DecodeAllPointwise(ws[1..], ps[1..]);
      assert forall i :: 1 <= i < |ws| ==> ws[1..][i - 1] == ws[i];
      assert forall i :: 1 <= i < |ps| ==> ps[1..][i - 1] == ps[i];
      if |ps| == |ws| && forall i :: 0 <= i < |ws| ==> Decode(ws[i]) == Some(ps[i]) {
        assert ps == [ps[0]] + ps[1..];
      }
    } else if |ws| > 0 {
      assert DecodeAll(ws) != Some(ps);
    }
  }

  function Receive(w: WireSnapshot): Option<Remotes.Snapshot>
  {
    match DecodeAll(w.players)
    case Some(ps) => Some(Remotes.Snapshot(w.t, ps))
    case None => None
  }

  /** Records that all decode are upserted exactly as the snapshot they decode to. */
  lemma {:induction false} PassesDecoded(m: map<string, Remotes.Remote>, ws: seq<Record>,
                                         ps: seq<Remotes.PlayerState>, t: int, self: Option<string>,
                                         positionKey: string)
    requires |ps| == |ws| && forall i :: 0 <= i < |ws| ==> DecodeWith(ws[i], positionKey) == Some(ps[i])
    ensures Passes(m, ws, t, self, positionKey) == Next(Remotes.UpsertAll(m, ps, t, self))
  {
    if |ws| > 0 {
      var n := |ws| - 1;
      assert forall i :: 0 <= i < n ==> ws[..n][i] == ws[i] && ps[..n][i] == ps[i];
      PassesDecoded(m, ws[..n], ps[..n], t, self, positionKey);
      Remotes.UpsertAllLast(m, ps, t, self);
    }
  }

  /** The stale pass reads the same ids from the records as from the snapshot they decode to. */
  lemma WireIdsDecoded(ws: seq<Record>, ps: seq<Remotes.PlayerState>, self: Option<string>)
    requires |ps| == |ws| && forall i :: 0 <= i < |ws| ==> Decode(ws[i]) == Some(ps[i])
    ensures WireIds(ws, self) == Remotes.SnapshotIds(ps, self)
  {
    forall id
      ensures id in WireIds(ws, self) <==> id in Remotes.SnapshotIds(ps, self)
    {
      Remotes.SnapshotIdsMembers(ps, self, id);
      if id in WireIds(ws, self) {
        var i :| 0 <= i < |ws| && IdOf(ws[i]).Some? && self != IdOf(ws[i]) && IdOf(ws[i]).value == id;
        assert ps[i].id == id && Remotes.Tracked(ps[i], self);
      }
      if id in Remotes.SnapshotIds(ps, self) {
        var i :| 0 <= i < |ps| && ps[i].id == id && Remotes.Tracked(ps[i], self);
        assert IdOf(ws[i]) == Some(id);
      }
    }
  }

  /** With `pos` read, a payload that decodes is applied exactly as `applySnapshot` of the
      snapshot it decodes to. */
  lemma HandleReceived(m: map<string, Remotes.Remote>, w: WireSnapshot, self: Option<string>)
    requires Receive(w).Some?
    ensures Handle(m, w, self, "pos") == Remotes.AfterSnapshot(m, Receive(w).value, self)
  {
    var ps := DecodeAll(w.players).value;
    DecodeAllPointwise(w.players, ps);
    WireIdsDecoded(w.players, ps, self);
    PassesDecoded(Remotes.Pruned(m, WireIds(w.players, self)), w.players, ps, w.t, self, "pos");
  }

  /** A record that cannot be read stops the loop there: the records before it are upserted,
      its player is created if new, and the records after it are never reached. */
  lemma StopsAtUnreadable(m: map<string, Remotes.Remote>, ws: seq<Record>,
                          ps: seq<Remotes.PlayerState>, t: int, self: Option<string>,
                          positionKey: string, k: nat)
    requires k < |ws| && |ps| == k
    requires forall i :: 0 <= i < k ==> DecodeWith(ws[i], positionKey) == Some(ps[i])
    requires Readable(ws[k]) && !IsLocal(ws[k], self) && DecodeWith(ws[k], positionKey).None?
    ensures Passes(m, ws, t, self, positionKey)
            == Threw(Created(Remotes.UpsertAll(m, ps, t, self), ws[k]["id"].s, ws[k]["color"].n))
  {
    assert ws[..k + 1][..k] == ws[..k];
    assert forall i :: 0 <= i < k ==> ws[..k][i] == ws[i];
    PassesDecoded(m, ws[..k], ps, t, self, positionKey);
    assert ws[..k + 1][k] == ws[k];
    ThrewStays(m, ws, t, self, positionKey, k + 1, |ws|);
    assert ws[..|ws|] == ws;
  }

  /** Every pass keeps records under their own id with at most `Capacity` samples. */
  lemma {:induction false} PassesWellFormed(m: map<string, Remotes.Remote>, ws: seq<Record>,
                                            t: int, self: Option<string>, positionKey: string)
    requires Remotes.WellFormed(m)
    ensures Remotes.WellFormed(Passes(m, ws, t, self, positionKey).m)
  {
    if |ws| > 0 {
      var n := |ws| - 1;
      PassesWellFormed(m, ws[..n], t, self, positionKey);
      var prev := Passes(m, ws[..n], t, self, positionKey).m;
      var w := ws[n];
      if !IsLocal(w, self) && Readable(w) {
        match DecodeWith(w, positionKey)
        case Some(p) =>
          Remotes.PassWellFormed(prev, p, t, self);
        case None =>
      }
    }
  }

  /** The client's view of a server player list, in order. */
  function States(ps: seq<Server.Player>): seq<Remotes.PlayerState>
  {
    seq(|ps|, i requires 0 <= i < |ps| => ToState(ps[i]))
  }

  /** Every snapshot the server sends is received in full, player by player, in order. */
  lemma ReceiveRoundTrip(msg: Server.SnapshotMsg)
    ensures Receive(EncodeSnapshot(msg)) == Some(Remotes.Snapshot(msg.t, States(msg.players)))
  {
    DecodeAllRoundTrip(msg.players);
  }

  /** The server's record list decodes to its players' states, in order. */
  lemma DecodeAllRoundTrip(ps: seq<Server.Player>)
    ensures DecodeAll(Encoded(ps)) == Some(States(ps))
  {
    var ws := Encoded(ps);
    forall i | 0 <= i < |ws|
      ensures Decode(ws[i]) == Some(States(ps)[i])
    {
      DecodeRoundTrip(ps[i]);
    }
    DecodeAllPointwise(ws, States(ps));
  }

  /** With the corrected reading, every other player of a server snapshot is tracked after the
      handler runs, and the local player is not. */
  lemma CorrectedShowsOthers(m: map<string, Remotes.Remote>, msg: Server.SnapshotMsg,
                             self: Option<string>, p: Server.Player)
    requires p in msg.players
    ensures var r := Handle(m, EncodeSnapshot(msg), self, "pos");
            (self != Some(p.id) ==> p.id in r) && (self == Some(p.id) ==> p.id !in r)
  {
    var snap := Remotes.Snapshot(msg.t, States(msg.players));
    ReceiveRoundTrip(msg);
    HandleReceived(m, EncodeSnapshot(msg), self);
    Remotes.SnapshotKeys(m, snap, self);
    var k :| 0 <= k < |msg.players| && msg.players[k] == p;
    assert snap.players[k] == ToState(p);
    Remotes.SnapshotIdsMembers(snap.players, self, p.id);
  }

  /** One pass of the upsert loop on a record as it arrives; `threw` reports the TypeError. */
  method ReadRecord(remotes: Remotes.RemotesManager, w: Record, t: int, self: Option<string>,
                    positionKey: string) returns (threw: bool)
    modifies remotes
    ensures remotes.remotes == Pass(old(remotes.remotes), w, t, self, positionKey).m
    ensures threw == Pass(old(remotes.remotes), w, t, self, positionKey).Threw?
  {
    if IsLocal(w, self) {
      return false;
    }
    if !Readable(w) {
      return true;
    }
    var id := w["id"].s;
    if id !in remotes.remotes {
      remotes.remotes := remotes.remotes[id := Remotes.NewRemote(id, w["color"].n)];
    }
    match DecodeWith(w, positionKey)
    case None =>
      threw := true;
    case Some(p) =>
      remotes.UpsertOne(p, t, self);
      threw := false;
  }

  /** `socket.on('snapshot', snap => remotes.applySnapshot(snap, socket.id))`, reading `pos`:
      the stale pass, then the upsert loop up to the first record that cannot be read. A payload
      that decodes in full is applied exactly as its snapshot. */
  method OnSnapshot(remotes: Remotes.RemotesManager, w: WireSnapshot, self: Option<string>)
    requires remotes.Valid()
    modifies remotes
    ensures remotes.Valid()
    ensures remotes.remotes == Handle(old(remotes.remotes), w, self, "pos")
    ensures Receive(w).Some? ==>
              remotes.remotes == Remotes.AfterSnapshot(old(remotes.remotes), Receive(w).value, self)
  {
    ghost var before := remotes.remotes;
    remotes.RemoveStale(WireIds(w.players, self));
    Remotes.PrunedWellFormed(before, WireIds(w.players, self));
    ReadRecords(remotes, w.players, w.t, self, "pos");
    if Receive(w).Some? {
      HandleReceived(before, w, self);
    }
  }

  /** The upsert loop over the records as they arrive, up to the first that throws. */
  method ReadRecords(remotes: Remotes.RemotesManager, ws: seq<Record>, t: int,
                     self: Option<string>, positionKey: string)
    requires remotes.Valid()
    modifies remotes
    ensures remotes.remotes == Passes(old(remotes.remotes), ws, t, self, positionKey).m
    ensures remotes.Valid()
  {
    ghost var start := remotes.remotes;
    var i := 0;
    var threw := false;
    while i < |ws| && !threw
      invariant 0 <= i <= |ws|
      invariant Passes(start, ws[..i], t, self, positionKey).m == remotes.remotes
      invariant Passes(start, ws[..i], t, self, positionKey).Threw? == threw
    {
      assert ws[..i + 1][..i] == ws[..i];
      threw := ReadRecord(remotes, ws[i], t, self, positionKey);
      i := i + 1;
    }
    if threw {
      ThrewStays(start, ws, t, self, positionKey, i, |ws|);
    }
    assert ws[..|ws|] == ws;
    PassesWellFormed(start, ws, t, self, positionKey);
  }
}
