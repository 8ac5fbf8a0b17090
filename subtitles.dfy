/**
 * The live-subtitle buffer: the state updater run on every `liveSubtitle`
 * event (src/App.js). An interim line of a speaker is overwritten in place
 * by that speaker's next line; lines older than ten seconds are dropped;
 * at most the five most recent lines are kept.
 */
module Subtitles {
  import opened Wrappers

  /** Age in milliseconds at which a line is dropped. */
  const TtlMs := 10000

  /** Number of lines kept on screen. */
  const Capacity := 5

  /** The payload of a `liveSubtitle` event. */
  datatype Transcript = Transcript(speakerId: string, text: string, isFinal: bool)

  /** A displayed line: the event's payload stamped with its arrival time. */
  datatype Subtitle = Subtitle(speakerId: string, text: string, isFinal: bool, timestamp: int)

  function Stamp(data: Transcript, now: int): (r: Subtitle) {
    Subtitle(data.speakerId, data.text, data.isFinal, now)
  }

  predicate IsInterimOf(s: Subtitle, speakerId: string) {
    s.speakerId == speakerId && !s.isFinal
  }

  /** i is the position of the first interim line of speakerId. */
  predicate IsFirstInterim(subs: seq<Subtitle>, speakerId: string, i: int) {
    && 0 <= i < |subs|
    && IsInterimOf(subs[i], speakerId)
    && forall j :: 0 <= j < i ==> !IsInterimOf(subs[j], speakerId)
  }

  predicate HasNoInterim(subs: seq<Subtitle>, speakerId: string) {
    forall j :: 0 <= j < |subs| ==> !IsInterimOf(subs[j], speakerId)
  }

  /** A line is still shown at time now when it is strictly younger than TtlMs. */
  predicate IsFresh(s: Subtitle, now: int) {
    now - s.timestamp < TtlMs
  }

  /** No speaker has two interim lines on screen. */
  ghost predicate OneInterimPerSpeaker(subs: seq<Subtitle>) {
    forall i, j :: 0 <= i < j < |subs| && !subs[i].isFinal && !subs[j].isFinal ==>
      subs[i].speakerId != subs[j].speakerId
  }

  /** `findIndex` for the first interim line of a speaker. */
  function FindInterim(subs: seq<Subtitle>, speakerId: string): (r: Option<nat>)
    ensures r.Some? ==> IsFirstInterim(subs, speakerId, r.value)
    ensures r.None? ==> HasNoInterim(subs, speakerId)
  {
    if subs == [] then None
    else if IsInterimOf(subs[0], speakerId) then Some(0)
    else match FindInterim(subs[1..], speakerId)
      case None => None
      case Some(i) => Some(i + 1)
  }

  /** Replace the speaker's first interim line in place, or append the new line. */
  function Upsert(subs: seq<Subtitle>, data: Transcript, now: int): (r: seq<Subtitle>)
    ensures forall i :: IsFirstInterim(subs, data.speakerId, i) ==> r == subs[i := Stamp(data, now)]
    ensures HasNoInterim(subs, data.speakerId) ==> r == subs + [Stamp(data, now)]
  {
    match FindInterim(subs, data.speakerId)
    case Some(i) => subs[i := Stamp(data, now)]
    case None => subs + [Stamp(data, now)]
  }

  /** `filter` keeping the lines younger than TtlMs at time now. */
  function Expire(subs: seq<Subtitle>, now: int): (r: seq<Subtitle>)
    ensures |r| <= |subs|
    ensures forall k :: 0 <= k < |r| ==> IsFresh(r[k], now)
    ensures forall x :: x in r ==> x in subs
    ensures forall x :: x in subs && IsFresh(x, now) ==> x in r
  {
    if subs == [] then []
    else (if IsFresh(subs[0], now) then [subs[0]] else []) + Expire(subs[1..], now)
  }

  /**
   * `slice(-n)` for n >= 1: the last n elements, or all of them when there
   * are fewer (`slice(-0)` would be `slice(0)`, the whole array).
   */
  function KeepLast(subs: seq<Subtitle>, n: nat): (r: seq<Subtitle>)
    requires n > 0
    ensures |r| == if |subs| <= n then |subs| else n
    ensures r == subs[|subs| - |r|..]
  {
    if |subs| <= n then subs else subs[|subs| - n..]
  }

  /** The whole updater for one `liveSubtitle` event received at time now. */
  function Update(subs: seq<Subtitle>, data: Transcript, now: int): (r: seq<Subtitle>)
    ensures |r| <= Capacity
    ensures forall k :: 0 <= k < |r| ==> now - r[k].timestamp < TtlMs
  {
    KeepLast(Expire(Upsert(subs, data, now), now), Capacity)
  }

  /** The filter keeps relative order: it distributes over concatenation. */
  lemma {:induction false} ExpireAppend(a: seq<Subtitle>, b: seq<Subtitle>, now: int)
    ensures Expire(a + b, now) == Expire(a, now) + Expire(b, now)
  {
    if a != [] {
      assert (a + b)[0] == a[0];
      assert (a + b)[1..] == a[1..] + b;
      ExpireAppend(a[1..], b, now);
    } else {
      assert a + b == b;
    }
  }

  /** An update never removes the just-received line, as long as the buffer was within capacity. */
  lemma ShowsLatest(subs: seq<Subtitle>, data: Transcript, now: int)
    requires |subs| <= Capacity
    ensures Stamp(data, now) in Update(subs, data, now)
    ensures HasNoInterim(subs, data.speakerId) ==>
      Update(subs, data, now)[|Update(subs, data, now)| - 1] == Stamp(data, now)
  {
    var st := Stamp(data, now);
    var u := Upsert(subs, data, now);
    var e := Expire(u, now);
    assert IsFresh(st, now);
    match FindInterim(subs, data.speakerId)
    case Some(i) =>
      assert u == subs[i := st];
      assert u[i] == st;
      assert st in e;
      assert KeepLast(e, Capacity) == e;
    case None =>
      assert u == subs + [st];
      ExpireAppend(subs, [st], now);
      assert Expire([st], now) == [st];
      assert e[|e| - 1] == st;
  }

  /** At most one interim line per speaker is an invariant of the updater. */
  lemma KeepsOneInterimPerSpeaker(subs: seq<Subtitle>, data: Transcript, now: int)
    requires OneInterimPerSpeaker(subs)
    ensures OneInterimPerSpeaker(Update(subs, data, now))
  {
    var u := Upsert(subs, data, now);
    UpsertKeepsOneInterim(subs, data, now);
    ExpireKeepsOneInterim(u, now);
    var e := Expire(u, now);
    SuffixKeepsOneInterim(e, |e| - |KeepLast(e, Capacity)|);
  }

  lemma SuffixKeepsOneInterim(subs: seq<Subtitle>, d: nat)
    requires OneInterimPerSpeaker(subs) && d <= |subs|
    ensures OneInterimPerSpeaker(subs[d..])
  {
    var r := subs[d..];
    forall i, j | 0 <= i < j < |r| && !r[i].isFinal && !r[j].isFinal
      ensures r[i].speakerId != r[j].speakerId
    {
      assert r[i] == subs[i + d] && r[j] == subs[j + d];
    }
  }

  /** The buffer facts the session relies on after each event. */
  lemma UpdateKeepsBufferValid(subs: seq<Subtitle>, data: Transcript, now: int)
    requires |subs| <= Capacity && OneInterimPerSpeaker(subs)
    ensures |Update(subs, data, now)| <= Capacity
    ensures OneInterimPerSpeaker(Update(subs, data, now))
    ensures Stamp(data, now) in Update(subs, data, now)
  {
    KeepsOneInterimPerSpeaker(subs, data, now);
    ShowsLatest(subs, data, now);
  }

  lemma UpsertKeepsOneInterim(subs: seq<Subtitle>, data: Transcript, now: int)
    requires OneInterimPerSpeaker(subs)
    ensures OneInterimPerSpeaker(Upsert(subs, data, now))
  {
    var st := Stamp(data, now);
    match FindInterim(subs, data.speakerId)
    case Some(i) =>
      var u := subs[i := st];
      forall a, b | 0 <= a < b < |u| && !u[a].isFinal && !u[b].isFinal
        ensures u[a].speakerId != u[b].speakerId
      {
        if a == i {
          assert IsInterimOf(subs[i], data.speakerId);
        } else if b == i {
          assert IsInterimOf(subs[i], data.speakerId);
        }
      }
    case None =>
      var u := subs + [st];
      forall a, b | 0 <= a < b < |u| && !u[a].isFinal && !u[b].isFinal
        ensures u[a].speakerId != u[b].speakerId
      {
        if b == |subs| {
          assert !IsInterimOf(subs[a], data.speakerId);
        }
      }
  }

  lemma HeadInterimIsOnlyOne(subs: seq<Subtitle>)
    requires OneInterimPerSpeaker(subs) && subs != []
    ensures forall x :: x in subs[1..] && !subs[0].isFinal && !x.isFinal ==> x.speakerId != subs[0].speakerId
  {
    forall x | x in subs[1..] && !subs[0].isFinal && !x.isFinal
      ensures x.speakerId != subs[0].speakerId
    {
      var k :| 0 <= k < |subs[1..]| && subs[1..][k] == x;
      assert subs[k + 1] == x;
    }
  }

  lemma {:induction false} ExpireKeepsOneInterim(subs: seq<Subtitle>, now: int)
    requires OneInterimPerSpeaker(subs)
    ensures OneInterimPerSpeaker(Expire(subs, now))
  {
    if subs != [] {
      var t := subs[1..];
      assert OneInterimPerSpeaker(t) by {
        forall i, j | 0 <= i < j < |t| && !t[i].isFinal && !t[j].isFinal
          ensures t[i].speakerId != t[j].speakerId
        {
          assert t[i] == subs[i + 1] && t[j] == subs[j + 1];
        }
      }
      ExpireKeepsOneInterim(t, now);
      var et := Expire(t, now);
      if IsFresh(subs[0], now) {
        var r := [subs[0]] + et;
        forall i, j | 0 <= i < j < |r| && !r[i].isFinal && !r[j].isFinal
          ensures r[i].speakerId != r[j].speakerId
        {
          if i == 0 {
            HeadInterimIsOnlyOne(subs);
            assert r[j] == et[j - 1] && r[j] in t;
          } else {
            assert r[i] == et[i - 1] && r[j] == et[j - 1];
          }
        }
      }
    }
  }
}
