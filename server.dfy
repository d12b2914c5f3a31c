/** server/src/index.ts: the player registry of the Socket.IO server. A connection inserts a
    player at the spawn point with a random colour and name and announces it; a disconnection
    deletes the player and announces the rest; a timer re-announces everyone every second. No
    handler ever moves a player. Random draws and clock readings arrive as parameters. */
module Server {
  import opened Vectors

  /** A stored player. The position field is called `pos` on this side. */
  datatype Player = Player(id: string, pos: Vec3, color: int, name: string)

  /** The `welcome` message sent to the connecting socket only. */
  datatype Welcome = Welcome(id: string, name: string, color: int)

  /** The `snapshot` message broadcast to every socket. */
  datatype SnapshotMsg = SnapshotMsg(t: int, players: seq<Player>)

  /** Where every player is placed, and stays. */
  const Spawn: Vec3 := Vec3(0.0, 1.2, 0.0)

  // ---------------------------------------------------------------------------------------
  // Colour and name from Math.random() draws in [0, 1)

  /** `Math.floor(Math.random() * n)`: an integer in [0, n - 1]. */
  function Draw(draw: real, n: nat): (k: int)
    requires 0.0 <= draw < 1.0 && 0 < n
    ensures 0 <= k < n
  {
    assert draw * n as real < n as real by {
      MulBelow(draw, n as real);
    }
    (draw * n as real).Floor
  }

  lemma MulBelow(a: real, b: real)
    requires 0.0 <= a < 1.0 && 0.0 < b
    ensures 0.0 <= a * b < b
  {
  }

  /** `Math.floor(Math.random() * 0xffffff)`: never pure white. */
  function ColorFromDraw(draw: real): (color: int)
    requires 0.0 <= draw < 1.0
    ensures 0 <= color <= 0xfffffe
  {
    Draw(draw, 0xffffff)
  }

  function DigitChar(d: int): char
    requires 0 <= d < 10
  {
    "0123456789"[d]
  }

  /** `String(n)` for a natural number: its decimal digits, most significant first. */
  function Decimal(n: nat): (s: string)
    ensures 0 < |s|
    ensures n < 10 ==> |s| == 1
    ensures n < 100 ==> |s| <= 2
    ensures n < 1000 ==> |s| <= 3
    ensures n < 10000 ==> |s| <= 4
    ensures forall i :: 0 <= i < |s| ==> '0' <= s[i] <= '9'
  {
    if n < 10 then [DigitChar(n)]
    else
      assert n < 10000 ==> n / 10 < 1000;
      assert n < 1000 ==> n / 10 < 100;
      assert n < 100 ==> n / 10 < 10;
      Decimal(n / 10) + [DigitChar(n % 10)]
  }

  /** `s.padStart(width, '0')`. */
  function PadStart(s: string, width: nat): (r: string)
    ensures |r| == if |s| <= width then width else |s|
    ensures forall i :: 0 <= i < |r| ==> r[i] == if i < |r| - |s| then '0' else s[i - (|r| - |s|)]
  {
    if |s| >= width then s else seq(width - |s|, _ => '0') + s
  }

  /** `'cube_' + String(Math.floor(Math.random() * 9999)).padStart(4, '0')`. */
  function NameFromDraw(draw: real): string
    requires 0.0 <= draw < 1.0
  {
    NameOf(Draw(draw, 9999))
  }

  /** The name built from the drawn number n: `cube_` and four digits. */
  function NameOf(n: nat): (name: string)
    requires n < 10000
    ensures |name| == 9 && name[..5] == "cube_"
    ensures forall i :: 5 <= i < 9 ==> '0' <= name[i] <= '9'
  {
    var digits := PadStart(Decimal(n), 4);
    PaddedDigits(n);
    var name := "cube_" + digits;
    assert name[..5] == "cube_";
    forall i | 5 <= i < 9
      ensures '0' <= name[i] <= '9'
    {
      assert name[i] == digits[i - 5];
    }
    name
  }

  /** A number below 10000, zero-padded to 4 places, is 4 digits. */
  lemma PaddedDigits(n: nat)
    requires n < 10000
    ensures var digits := PadStart(Decimal(n), 4);
            |digits| == 4 && forall i :: 0 <= i < 4 ==> '0' <= digits[i] <= '9'
  {
    var s := Decimal(n);
    var digits := PadStart(s, 4);
  }

  /** The numeric value of a string of decimal digits. */
  function DigitsValue(s: string): nat
    requires forall i :: 0 <= i < |s| ==> '0' <= s[i] <= '9'
  {
    if |s| == 0 then 0
    else DigitsValue(s[..|s| - 1]) * 10 + (s[|s| - 1] as int - '0' as int)
  }

  /** Reading the digits back gives the number. */
  lemma {:induction false} DecimalValue(n: nat)
    ensures DigitsValue(Decimal(n)) == n
  {
    if n >= 10 {
      DecimalValue(n / 10);
      var s := Decimal(n);
      assert s[..|s| - 1] == Decimal(n / 10);
    }
  }

  /** Leading zeros do not change the value. */
  lemma {:induction false} PaddedValue(s: string, width: nat)
    requires forall i :: 0 <= i < |s| ==> '0' <= s[i] <= '9'
    ensures DigitsValue(PadStart(s, width)) == DigitsValue(s)
  {
    if |s| < width {
      ZerosPrefix(width - |s|, s);
    }
  }

  lemma {:induction false} ZerosPrefix(k: nat, s: string)
    requires forall i :: 0 <= i < |s| ==> '0' <= s[i] <= '9'
    ensures DigitsValue(seq(k, _ => '0') + s) == DigitsValue(s)
  {
    if |s| == 0 {
      ZerosValue(k);
      assert seq(k, _ => '0') + s == seq(k, _ => '0');
    } else {
      var n := |s| - 1;
      ZerosPrefix(k, s[..n]);
      assert (seq(k, _ => '0') + s)[..k + n] == seq(k, _ => '0') + s[..n];
    }
  }

  lemma {:induction false} ZerosValue(k: nat)
    ensures DigitsValue(seq(k, _ => '0')) == 0
  {
    if k > 0 {
      ZerosValue(k - 1);
      assert seq(k, _ => '0')[..k - 1] == seq(k - 1, _ => '0');
    }
  }

  /** The four digits of a generated name spell the number it was made from. */
  lemma NameRoundTrip(n: nat)
    requires n < 10000
    ensures DigitsValue(NameOf(n)[5..]) == n
  {
    var digits := PadStart(Decimal(n), 4);
    assert NameOf(n)[5..] == digits;
    PaddedRoundTrip(n);
  }

  lemma PaddedRoundTrip(n: nat)
    requires n < 10000
    ensures DigitsValue(PadStart(Decimal(n), 4)) == n
  {
    DecimalValue(n);
    PaddedValue(Decimal(n), 4);
  }

  // ---------------------------------------------------------------------------------------
  // The `players` Map, in insertion order

  /** No two entries share an id, as the keys of a Map. */
  predicate DistinctIds(ps: seq<Player>)
  {
    forall i, j :: 0 <= i < j < |ps| ==> ps[i].id != ps[j].id
  }

  predicate HasId(ps: seq<Player>, id: string)
  {
    exists i :: 0 <= i < |ps| && ps[i].id == id
  }

  /** `players.set(p.id, p)`: an existing entry is replaced where it stands, a new one is
      appended. */
  function MapSet(ps: seq<Player>, p: Player): (r: seq<Player>)
    requires DistinctIds(ps)
    ensures DistinctIds(r) && p in r
    ensures HasId(ps, p.id) ==> |r| == |ps|
    ensures HasId(ps, p.id) ==> forall i :: 0 <= i < |ps| ==> r[i].id == ps[i].id
    ensures HasId(ps, p.id) ==> forall i :: 0 <= i < |ps| && ps[i].id != p.id ==> r[i] == ps[i]
    ensures !HasId(ps, p.id) ==> r == ps + [p]
  {
    if HasId(ps, p.id) then
      var r := seq(|ps|, i requires 0 <= i < |ps| => if ps[i].id == p.id then p else ps[i]);
      var k :| 0 <= k < |ps| && ps[k].id == p.id;
      assert r[k] == p;
      r
    else
      var r := ps + [p];
      assert r[|ps|] == p;
      r
  }

  /** `players.delete(id)`: the entry goes, the others keep their order. */
  function MapDelete(ps: seq<Player>, id: string): (r: seq<Player>)
    ensures !HasId(r, id)
    ensures forall p :: p in r <==> p in ps && p.id != id
    ensures DistinctIds(ps) ==> DistinctIds(r)
    ensures !HasId(ps, id) ==> r == ps
  {
    if |ps| == 0 then []
    else if ps[0].id == id then MapDelete(ps[1..], id)
    else [ps[0]] + MapDelete(ps[1..], id)
  }

  /** Deleting a present id removes exactly its one entry: the entries before it and after it
      stay, in their insertion order. */
  lemma {:induction false} MapDeleteKeepsOrder(ps: seq<Player>, id: string, k: nat)
    requires DistinctIds(ps) && k < |ps| && ps[k].id == id
    ensures MapDelete(ps, id) == ps[..k] + ps[k + 1..]
  {
    if k == 0 {
      MapDeleteHead(ps);
    } else {
      DistinctTail(ps);
      assert ps[1..][k - 1] == ps[k];
      MapDeleteKeepsOrder(ps[1..], id, k - 1);
      SplitAfterHead(ps, k);
      assert MapDelete(ps, id) == [ps[0]] + MapDelete(ps[1..], id);
    }
  }

  /** Deleting the first entry's id leaves the rest, which never repeats it. */
  lemma MapDeleteHead(ps: seq<Player>)
    requires DistinctIds(ps) && 0 < |ps|
    ensures MapDelete(ps, ps[0].id) == ps[1..]
  {
    FirstIdNotInTail(ps);
  }

  /** Dropping entry `k` is keeping the head and dropping entry `k - 1` of the tail. */
  lemma SplitAfterHead(ps: seq<Player>, k: nat)
    requires 0 < k < |ps|
    ensures ps[..k] + ps[k + 1..] == [ps[0]] + (ps[1..][..k - 1] + ps[1..][k..])
  {
    assert ps[..k] == [ps[0]] + ps[1..][..k - 1];
    assert ps[k + 1..] == ps[1..][k..];
  }

  lemma DistinctTail(ps: seq<Player>)
    requires DistinctIds(ps) && 0 < |ps|
    ensures DistinctIds(ps[1..])
  {
    var tail := ps[1..];
    forall i, j | 0 <= i < j < |tail|
      ensures tail[i].id != tail[j].id
    {
      assert tail[i] == ps[i + 1] && tail[j] == ps[j + 1];
    }
  }

  lemma FirstIdNotInTail(ps: seq<Player>)
    requires DistinctIds(ps) && 0 < |ps|
    ensures !HasId(ps[1..], ps[0].id)
  {
    var tail := ps[1..];
    forall j | 0 <= j < |tail|
      ensures tail[j].id != ps[0].id
    {
      assert tail[j] == ps[j + 1];
    }
  }

  /** A connection followed by its disconnection leaves the registry as it was. */
  lemma ConnectDisconnect(ps: seq<Player>, p: Player)
    requires DistinctIds(ps) && !HasId(ps, p.id)
    ensures MapDelete(MapSet(ps, p), p.id) == ps
  {
    MapDeleteAppend(ps, p);
  }

  lemma {:induction false} MapDeleteAppend(ps: seq<Player>, p: Player)
    requires !HasId(ps, p.id)
    ensures MapDelete(ps + [p], p.id) == ps
  {
    if |ps| > 0 {
      MapDeleteAppend(ps[1..], p);
      assert (ps + [p])[1..] == ps[1..] + [p];
    }
  }

  /** Every stored player stands at the spawn point. */
  predicate AllAtSpawn(ps: seq<Player>)
  {
    forall i :: 0 <= i < |ps| ==> ps[i].pos == Spawn
  }

  class Registry {
    var players: seq<Player>

    ghost predicate Valid()
      reads this
    {
      DistinctIds(players) && AllAtSpawn(players)
    }

    constructor ()
      ensures players == [] && Valid()
    {
      players := [];
    }

    /** The `connection` handler: store the new player, welcome it, announce everyone. */
    method Connect(socketId: string, colorDraw: real, nameDraw: real, now: int)
      returns (welcome: Welcome, snapshot: SnapshotMsg)
      requires Valid() && 0.0 <= colorDraw < 1.0 && 0.0 <= nameDraw < 1.0
      modifies this
      ensures Valid()
      ensures welcome == Welcome(socketId, NameFromDraw(nameDraw), ColorFromDraw(colorDraw))
      ensures players == MapSet(old(players), Player(socketId, Spawn, welcome.color, welcome.name))
      ensures snapshot == SnapshotMsg(now, players)
      ensures Player(socketId, Spawn, welcome.color, welcome.name) in snapshot.players
    {
      var color := ColorFromDraw(colorDraw);
      var name := NameFromDraw(nameDraw);
      var player := Player(socketId, Spawn, color, name);
      players := MapSet(players, player);
      welcome := Welcome(socketId, name, color);
      snapshot := SnapshotMsg(now, players);
    }

    /** The `disconnect` handler: delete first, then announce the rest. */
    method Disconnect(socketId: string, now: int) returns (snapshot: SnapshotMsg)
      requires Valid()
      modifies this
      ensures Valid()
      ensures players == MapDelete(old(players), socketId)
      ensures snapshot == SnapshotMsg(now, players) && !HasId(snapshot.players, socketId)
      ensures forall k :: 0 <= k < |old(players)| && old(players)[k].id == socketId ==>
                snapshot.players == old(players)[..k] + old(players)[k + 1..]
    {
      forall k | 0 <= k < |players| && players[k].id == socketId
        ensures MapDelete(players, socketId) == players[..k] + players[k + 1..]
      {
        MapDeleteKeepsOrder(players, socketId, k);
      }
      players := MapDelete(players, socketId);
      snapshot := SnapshotMsg(now, players);
    }

    /** The periodic snapshot, sent every 1000 ms. */
    method Broadcast(now: int) returns (snapshot: SnapshotMsg)
      requires Valid()
      ensures snapshot.t == now && snapshot.players == players
      ensures forall i :: 0 <= i < |snapshot.players| ==> snapshot.players[i].pos == Spawn
    {
      snapshot := SnapshotMsg(now, players);
    }
  }
}
