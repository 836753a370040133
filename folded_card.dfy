/**
 The folded greeting card: a card that flips open and closed on a click, and an
 "emoji rain" of falling glyphs. New emojis are spawned one at a time by an
 ambient timer, fifteen at a time by a click on a heart, and every animation
 tick moves each one down by its speed, turns it by four degrees and drops
 those that have left the frame.

 Random draws (`Math.random()`) and clock readings (`Date.now()`) are
 parameters: a `Draw` holds the four raw draws an emoji is built from, each in
 [0, 1), and a burst gets one clock reading per emoji it builds.
 */
module FoldedCard {

  /** The six glyphs an emoji is drawn from. */
  const EmojiList: seq<string> :=
    ["\U{1F62D}", "❤️", "\U{1FAF0}", "\U{1F380}", "\U{1F495}", "\U{1F601}"]

  /** Vertical position (percent of the container height) of a new emoji, just above the frame. */
  const SpawnY: real := -10.0
  /** An emoji whose vertical position reaches this bound has left the frame. */
  const CullY: real := 110.0
  /** Degrees an emoji turns on each tick. */
  const TurnPerTick: real := 4.0
  /** Number of emojis one heart click adds. */
  const BurstSize: nat := 15

  /** One falling glyph. */
  datatype Emoji = Emoji(id: int, emoji: string, x: real, y: real, speed: real, rotation: real)

  /** A value of `Math.random()`. */
  predicate Unit(r: real) { 0.0 <= r < 1.0 }

  /** The four random draws a new emoji is built from. */
  datatype Draw = Draw(glyph: real, x: real, speed: real, rotation: real) {
    predicate Valid() { Unit(glyph) && Unit(x) && Unit(speed) && Unit(rotation) }
  }

  /** Scales a draw to an index into the list, rounding down: a uniform pick from the list. */
  function PickGlyph(r: real): (g: string)
    requires Unit(r)
    ensures g in EmojiList
  {
    EmojiList[(r * (|EmojiList| as real)).Floor]
  }

  /** An emoji made by the ambient spawn timer at time `now`. */
  function SpawnEmoji(now: int, d: Draw): (e: Emoji)
    requires d.Valid()
    ensures e.id == now && e.y == SpawnY
    ensures e.emoji in EmojiList
    ensures 0.0 <= e.x < 100.0 && 1.5 <= e.speed < 3.5 && 0.0 <= e.rotation < 360.0
  {
    Emoji(now, PickGlyph(d.glyph), d.x * 100.0, SpawnY, 1.5 + d.speed * 2.0, d.rotation * 360.0)
  }

  /** The `i`-th emoji of a burst, built when the clock read `now`. */
  function BurstEmoji(now: int, i: int, d: Draw): (e: Emoji)
    requires d.Valid()
    ensures e.id == now + i && e.y == SpawnY
    ensures e.emoji in EmojiList
    ensures 0.0 <= e.x < 100.0 && 2.0 <= e.speed < 5.0 && 0.0 <= e.rotation < 360.0
  {
    Emoji(now + i, PickGlyph(d.glyph), d.x * 100.0, SpawnY, 2.0 + d.speed * 3.0, d.rotation * 360.0)
  }

  /** Clock readings taken one after another never go back. */
  predicate NonDecreasing(clock: seq<int>) {
    forall i, j :: 0 <= i < j < |clock| ==> clock[i] <= clock[j]
  }

  /**
   Builds the fifteen emojis of one heart click, pushing one per loop
   iteration. The clock is read afresh in every iteration: `clock[i]` is the
   reading of iteration `i`, so emoji `i` takes the id `clock[i] + i` and the
   draws `draws[i]`. With a clock that never goes back, the ids strictly
   ascend, so no two emojis of one burst share an id (they may skip values).
   */
  method BuildBurst(clock: seq<int>, draws: seq<Draw>) returns (burst: seq<Emoji>)
    requires |clock| == BurstSize
    requires |draws| == BurstSize && forall d <- draws :: d.Valid()
    ensures |burst| == BurstSize
    ensures forall i :: 0 <= i < BurstSize ==> burst[i] == BurstEmoji(clock[i], i, draws[i])
    ensures forall e <- burst :: e.y == SpawnY && 0.0 <= e.x < 100.0 && 2.0 <= e.speed < 5.0 && e.emoji in EmojiList
    ensures NonDecreasing(clock) ==> forall i, j :: 0 <= i < j < |burst| ==> burst[i].id < burst[j].id
  {
    burst := [];
    for i := 0 to BurstSize
      invariant |burst| == i
      invariant forall j :: 0 <= j < i ==> burst[j] == BurstEmoji(clock[j], j, draws[j])
    {
      burst := burst + [BurstEmoji(clock[i], i, draws[i])];
    }
  }

  /** What one tick does to a single emoji before culling. */
  function Fall(e: Emoji): Emoji {
    e.(y := e.y + e.speed, rotation := e.rotation + TurnPerTick)
  }

  /** The `map` half of a tick. */
  function Fallen(s: seq<Emoji>): seq<Emoji> {
    seq(|s|, i requires 0 <= i < |s| => Fall(s[i]))
  }

  /** The `filter` half of a tick: the emojis still inside the frame, in order. */
  function OnScreen(s: seq<Emoji>): (r: seq<Emoji>)
    ensures |r| <= |s|
    ensures forall e <- r :: e in s && e.y < CullY
  {
    if s == [] then []
    else if s[0].y < CullY then [s[0]] + OnScreen(s[1..])
    else OnScreen(s[1..])
  }

  /** One animation tick over the whole list: move every emoji, then cull. */
  function Tick(s: seq<Emoji>): (r: seq<Emoji>)
    ensures |r| <= |s|
    ensures forall e <- r :: e.y < CullY
  {
    OnScreen(Fallen(s))
  }

  /** Adds one to every index of `t`. */
  function Shifted(t: seq<nat>): (r: seq<nat>)
    ensures |r| == |t|
    ensures forall k :: 0 <= k < |t| ==> r[k] == t[k] + 1
  {
    seq(|t|, k requires 0 <= k < |t| => t[k] + 1)
  }

  /** The positions in `s` of the emojis that `OnScreen` keeps, in ascending order. */
  ghost function Kept(s: seq<Emoji>): seq<nat> {
    if s == [] then []
    else (if s[0].y < CullY then [0] else []) + Shifted(Kept(s[1..]))
  }

  /** The positions in `s` of the emojis that survive a tick. */
  ghost function Survivors(s: seq<Emoji>): seq<nat> {
    Kept(Fallen(s))
  }

  /** Survivor `k` of `OnScreen(s)` is the element of `s` at position `Kept(s)[k]`. */
  lemma {:induction false} KeptLocatesOnScreen(s: seq<Emoji>)
    ensures |Kept(s)| == |OnScreen(s)|
    ensures forall k :: 0 <= k < |Kept(s)| ==> Kept(s)[k] < |s| && OnScreen(s)[k] == s[Kept(s)[k]]
  {
    if s != [] {
      var t := s[1..];
      KeptLocatesOnScreen(t);
      var tail := Shifted(Kept(t));
      if s[0].y < CullY {
        assert Kept(s) == [0] + tail;
        assert OnScreen(s) == [s[0]] + OnScreen(t);
        forall k | 1 <= k < |Kept(s)|
          ensures Kept(s)[k] < |s| && OnScreen(s)[k] == s[Kept(s)[k]]
        {
          assert Kept(s)[k] == Kept(t)[k - 1] + 1;
          assert OnScreen(s)[k] == OnScreen(t)[k - 1];
        }
      } else {
        assert Kept(s) == tail;
        forall k | 0 <= k < |Kept(s)|
          ensures Kept(s)[k] < |s| && OnScreen(s)[k] == s[Kept(s)[k]]
        {
          assert Kept(s)[k] == Kept(t)[k] + 1;
        }
      }
    }
  }

  /** The positions `Kept` lists are strictly ascending and inside `s`. */
  lemma {:induction false} KeptAscending(s: seq<Emoji>)
    ensures forall k :: 0 <= k < |Kept(s)| ==> Kept(s)[k] < |s|
    ensures forall k, l :: 0 <= k < l < |Kept(s)| ==> Kept(s)[k] < Kept(s)[l]
  {
    if s != [] {
      var t := s[1..];
      KeptAscending(t);
      var tail := Shifted(Kept(t));
      if s[0].y < CullY {
        assert Kept(s) == [0] + tail;
      } else {
        assert Kept(s) == tail;
      }
    }
  }

  /** `Kept(s)` lists the position of every element of `s` below the bound, and no other. */
  lemma {:induction false} KeptExactly(s: seq<Emoji>)
    ensures forall i :: 0 <= i < |s| ==> (i in Kept(s) <==> s[i].y < CullY)
  {
    if s != [] {
      var t := s[1..];
      KeptExactly(t);
      var head: seq<nat> := if s[0].y < CullY then [0] else [];
      var tail := Shifted(Kept(t));
      assert Kept(s) == head + tail;
      forall i | 0 <= i < |s|
        ensures i in Kept(s) <==> s[i].y < CullY
      {
        if i == 0 {
          assert 0 !in tail;
        } else {
          assert s[i] == t[i - 1];
          if i in tail {
            var k :| 0 <= k < |tail| && tail[k] == i;
            assert Kept(t)[k] == i - 1;
          }
          if i - 1 in Kept(t) {
            var k :| 0 <= k < |Kept(t)| && Kept(t)[k] == i - 1;
            assert tail[k] == i;
          }
        }
      }
    }
  }

  /**
   `OnScreen` is an order-preserving filter: its result lists exactly the
   elements with `y` below the bound, at strictly ascending positions.
   */
  lemma OnScreenIsOrderedFilter(s: seq<Emoji>)
    ensures |Kept(s)| == |OnScreen(s)|
    ensures forall k :: 0 <= k < |Kept(s)| ==> Kept(s)[k] < |s| && OnScreen(s)[k] == s[Kept(s)[k]]
    ensures forall k, l :: 0 <= k < l < |Kept(s)| ==> Kept(s)[k] < Kept(s)[l]
    ensures forall i :: 0 <= i < |s| ==> (i in Kept(s) <==> s[i].y < CullY)
  {
    KeptLocatesOnScreen(s);
    KeptAscending(s);
    KeptExactly(s);
  }

  /**
   A tick is a filtered map that keeps the order of the list: survivor `k`
   is the input emoji at position `Survivors(s)[k]`, moved down by its speed
   and turned by four degrees, with its id, glyph, column and speed kept; an
   input emoji survives exactly when its new `y` is below the bound.
   */
  lemma TickIsOrderedFilteredMap(s: seq<Emoji>)
    ensures |Survivors(s)| == |Tick(s)| <= |s|
    ensures forall k :: 0 <= k < |Survivors(s)| ==>
      var i := Survivors(s)[k];
      i < |s| &&
      Tick(s)[k].y == s[i].y + s[i].speed && Tick(s)[k].rotation == s[i].rotation + TurnPerTick &&
      Tick(s)[k].id == s[i].id && Tick(s)[k].emoji == s[i].emoji &&
      Tick(s)[k].x == s[i].x && Tick(s)[k].speed == s[i].speed
    ensures forall k, l :: 0 <= k < l < |Survivors(s)| ==> Survivors(s)[k] < Survivors(s)[l]
    ensures forall i :: 0 <= i < |s| ==> (i in Survivors(s) <==> s[i].y + s[i].speed < CullY)
  {
    OnScreenIsOrderedFilter(Fallen(s));
  }

  /** A tick treats every emoji on its own: ticking a concatenation ticks each part. */
  lemma {:induction false} TickDistributes(a: seq<Emoji>, b: seq<Emoji>)
    ensures Tick(a + b) == Tick(a) + Tick(b)
  {
    if a == [] {
      assert a + b == b;
    } else {
      TickDistributes(a[1..], b);
      assert (a + b)[1..] == a[1..] + b;
      assert Fallen(a + b)[1..] == Fallen((a + b)[1..]);
      assert Fallen(a)[1..] == Fallen(a[1..]);
    }
  }

  /** An emoji that may be on the list: inside the frame, with the bounds it was created with. */
  predicate InFlight(e: Emoji) {
    SpawnY <= e.y < CullY && 0.0 <= e.x < 100.0 && 1.5 <= e.speed < 5.0 && e.emoji in EmojiList
  }

  /** A tick keeps every emoji of the list in flight: they only move down, and those out of frame go. */
  lemma TickKeepsInFlight(s: seq<Emoji>)
    requires forall e <- s :: InFlight(e)
    ensures forall e <- Tick(s) :: InFlight(e)
  {
    TickIsOrderedFilteredMap(s);
    forall e | e in Tick(s)
      ensures InFlight(e)
    {
      var k :| 0 <= k < |Tick(s)| && Tick(s)[k] == e;
      assert s[Survivors(s)[k]] in s;
    }
  }

  /** The card: whether it is open, and the emojis currently falling over it. */
  class Card {
    var isOpen: bool
    var emojis: seq<Emoji>

    ghost predicate Valid()
      reads this
    {
      forall e <- emojis :: InFlight(e)
    }

    /** A closed card with no emojis. */
    constructor ()
      ensures Valid() && !isOpen && emojis == []
    {
      isOpen := false;
      emojis := [];
    }

    /**
     A click on a heart: fifteen new emojis are appended after the current
     ones. The click stops there, so the card does not flip.
     */
    method HeartClick(clock: seq<int>, draws: seq<Draw>)
      requires Valid() && |clock| == BurstSize
      requires |draws| == BurstSize && forall d <- draws :: d.Valid()
      modifies this`emojis
      ensures Valid() && isOpen == old(isOpen)
      ensures |emojis| == |old(emojis)| + BurstSize && emojis[..|old(emojis)|] == old(emojis)
      ensures forall i :: 0 <= i < BurstSize ==> emojis[|old(emojis)| + i] == BurstEmoji(clock[i], i, draws[i])
    {
      var burst := BuildBurst(clock, draws);
      emojis := emojis + burst;
    }

    /** One firing of the ambient spawn timer: one new emoji at the end. */
    method Spawn(now: int, d: Draw)
      requires Valid() && d.Valid()
      modifies this`emojis
      ensures Valid() && isOpen == old(isOpen)
      ensures emojis == old(emojis) + [SpawnEmoji(now, d)]
    {
      var e := SpawnEmoji(now, d);
      emojis := emojis + [e];
    }

    /** One firing of the animation timer. */
    method AnimationTick()
      requires Valid()
      modifies this`emojis
      ensures Valid() && isOpen == old(isOpen)
      ensures emojis == Tick(old(emojis))
    {
      TickKeepsInFlight(emojis);
      emojis := Tick(emojis);
    }

    /**
     A click on the card. A click whose target lies inside a heart is left
     alone; any other click flips the card.
     */
    method Click(insideHeart: bool)
      requires Valid()
      modifies this`isOpen
      ensures Valid()
      ensures isOpen == (if insideHeart then old(isOpen) else !old(isOpen))
      ensures emojis == old(emojis)
    {
      if insideHeart {
        return;
      }
      isOpen := !isOpen;
    }
  }
}
