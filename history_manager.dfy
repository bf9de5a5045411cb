/**
 * The shot history: every shot the monitor records, in the order it was
 * recorded, with the profile it belongs to. The views handed to the user
 * interface list the newest shot first. The JSON file the history is kept
 * in is not modelled: the loaded shots arrive as a parameter, the clock's
 * ISO time stamp as a string.
 */
module HistoryManager {
  import opened Wrappers
  import opened Numbers

  /** One shot; profile is None for a stored shot that has no profile entry. */
  datatype Shot = Shot(
    timestamp: string, profile: Option<string>,
    clubSpeed: real, ballSpeed: real, smash: real, launch: real,
    spin: int, carry: int, total: int)

  /** Rounding to one decimal (scale 10) and to two decimals (scale 100). */
  const ONE_DECIMAL: nat := 10
  const TWO_DECIMALS: nat := 100

  /**
   * The shot addShot records: speeds and launch angle rounded to one
   * decimal, smash factor to two, each within half a unit of the last kept
   * digit of the measured value.
   */
  function NewShot(now: string, profile: string, clubSpeed: real, ballSpeed: real, smash: real, launch: real,
                   spin: int, carry: int, total: int): (s: Shot)
    ensures s.timestamp == now && s.profile == Some(profile)
    ensures s.spin == spin && s.carry == carry && s.total == total
    ensures HasDigits(s.clubSpeed, ONE_DECIMAL) && Abs(s.clubSpeed - clubSpeed) <= 0.05
    ensures HasDigits(s.ballSpeed, ONE_DECIMAL) && Abs(s.ballSpeed - ballSpeed) <= 0.05
    ensures HasDigits(s.launch, ONE_DECIMAL) && Abs(s.launch - launch) <= 0.05
    ensures HasDigits(s.smash, TWO_DECIMALS) && Abs(s.smash - smash) <= 0.005
  {
    RoundClose(clubSpeed, ONE_DECIMAL);
    RoundHasDigits(clubSpeed, ONE_DECIMAL);
    RoundClose(ballSpeed, ONE_DECIMAL);
    RoundHasDigits(ballSpeed, ONE_DECIMAL);
    RoundClose(launch, ONE_DECIMAL);
    RoundHasDigits(launch, ONE_DECIMAL);
    RoundClose(smash, TWO_DECIMALS);
    RoundHasDigits(smash, TWO_DECIMALS);
    Shot(now, Some(profile),
         Round(clubSpeed, ONE_DECIMAL), Round(ballSpeed, ONE_DECIMAL),
         Round(smash, TWO_DECIMALS), Round(launch, ONE_DECIMAL),
         spin, carry, total)
  }

  /** A shot measured to the stored precision is recorded unchanged. */
  lemma {:induction false} PreciseShotUnchanged(now: string, profile: string, clubSpeed: real, ballSpeed: real,
                                                smash: real, launch: real, spin: int, carry: int, total: int)
    requires HasDigits(clubSpeed, ONE_DECIMAL) && HasDigits(ballSpeed, ONE_DECIMAL)
    requires HasDigits(launch, ONE_DECIMAL) && HasDigits(smash, TWO_DECIMALS)
    ensures NewShot(now, profile, clubSpeed, ballSpeed, smash, launch, spin, carry, total)
         == Shot(now, Some(profile), clubSpeed, ballSpeed, smash, launch, spin, carry, total)
  {
    RoundIdempotent(clubSpeed, ONE_DECIMAL);
    RoundIdempotent(ballSpeed, ONE_DECIMAL);
    RoundIdempotent(launch, ONE_DECIMAL);
    RoundIdempotent(smash, TWO_DECIMALS);
  }

  /** The shots of one profile, oldest first. */
  function OfProfile(shots: seq<Shot>, profile: string): (r: seq<Shot>)
    ensures |r| <= |shots|
    ensures forall i :: 0 <= i < |r| ==> r[i].profile == Some(profile)
  {
    if shots == [] then []
    else
      var init := OfProfile(shots[..|shots| - 1], profile);
      var s := shots[|shots| - 1];
      if s.profile == Some(profile) then init + [s] else init
  }

  /** The shots of every other profile (and those with none), oldest first. */
  function NotOfProfile(shots: seq<Shot>, profile: string): (r: seq<Shot>)
    ensures |r| <= |shots|
    ensures forall i :: 0 <= i < |r| ==> r[i].profile != Some(profile)
  {
    if shots == [] then []
    else
      var init := NotOfProfile(shots[..|shots| - 1], profile);
      var s := shots[|shots| - 1];
      if s.profile != Some(profile) then init + [s] else init
  }

  /** The list read backwards: the newest shot first. */
  function Reversed(shots: seq<Shot>): (r: seq<Shot>)
    ensures |r| == |shots|
    ensures forall i :: 0 <= i < |shots| ==> r[i] == shots[|shots| - 1 - i]
  {
    if shots == [] then [] else [shots[|shots| - 1]] + Reversed(shots[..|shots| - 1])
  }

  /** getHistoryForProfile: the profile's shots, newest first. */
  function HistoryForProfile(shots: seq<Shot>, profile: string): (r: seq<Shot>)
    ensures |r| == |OfProfile(shots, profile)|
    ensures forall i :: 0 <= i < |r| ==> r[i].profile == Some(profile)
  {
    Reversed(OfProfile(shots, profile))
  }

  /**
   * A shot is in the profile's history exactly when it was recorded for
   * that profile; clearing a profile keeps exactly the shots of the others.
   */
  lemma {:induction false} FilterExactly(shots: seq<Shot>, profile: string, s: Shot)
    ensures s in OfProfile(shots, profile) <==> s in shots && s.profile == Some(profile)
    ensures s in NotOfProfile(shots, profile) <==> s in shots && s.profile != Some(profile)
  {
    if shots != [] {
      var init := shots[..|shots| - 1];
      FilterExactly(init, profile, s);
      assert shots == init + [shots[|shots| - 1]];
    }
  }

  /** The two filters split the history: their sizes add up to the number of shots. */
  lemma {:induction false} FiltersSplit(shots: seq<Shot>, profile: string)
    ensures |OfProfile(shots, profile)| + |NotOfProfile(shots, profile)| == |shots|
  {
    if shots != [] {
      FiltersSplit(shots[..|shots| - 1], profile);
    }
  }

  /**
   * Clearing one profile's history leaves it empty and leaves every other
   * profile's history as it was, in the same order.
   */
  lemma {:induction false} ClearedProfileHistory(shots: seq<Shot>, profile: string, other: string)
    ensures OfProfile(NotOfProfile(shots, profile), profile) == []
    ensures other != profile ==> OfProfile(NotOfProfile(shots, profile), other) == OfProfile(shots, other)
  {
    if shots != [] {
      var init := shots[..|shots| - 1];
      var s := shots[|shots| - 1];
      ClearedProfileHistory(init, profile, other);
      var kept := NotOfProfile(init, profile);
      assert shots == init + [s];
      OfProfileSnoc(init, s, other);
      if s.profile != Some(profile) {
        assert NotOfProfile(shots, profile) == kept + [s];
        OfProfileSnoc(kept, s, profile);
        OfProfileSnoc(kept, s, other);
      } else {
        assert NotOfProfile(shots, profile) == kept;
      }
    }
  }

  lemma OfProfileSnoc(shots: seq<Shot>, s: Shot, profile: string)
    ensures OfProfile(shots + [s], profile) == OfProfile(shots, profile) + (if s.profile == Some(profile) then [s] else [])
  {
    assert (shots + [s])[..|shots|] == shots;
  }

  /** A shot just added heads its profile's history and the whole history. */
  lemma AddedShotFirst(shots: seq<Shot>, s: Shot, profile: string)
    requires s.profile == Some(profile)
    ensures HistoryForProfile(shots + [s], profile)[0] == s
    ensures Reversed(shots + [s])[0] == s
    ensures HistoryForProfile(shots + [s], profile)[1..] == HistoryForProfile(shots, profile)
  {
    assert (shots + [s])[..|shots|] == shots;
    var r := HistoryForProfile(shots + [s], profile);
    var h := HistoryForProfile(shots, profile);
    assert |r[1..]| == |h|;
    forall i | 0 <= i < |h|
      ensures r[1..][i] == h[i]
    {
    }
  }

  /** The history object; shots is the stored list, oldest first. */
  class History {
    var shots: seq<Shot>

    /** Loads the stored shots, or starts empty when there is no readable file. */
    constructor(file: Option<seq<Shot>>)
      ensures shots == (if file.Some? then file.value else [])
    {
      shots := if file.Some? then file.value else [];
    }

    method AddShot(now: string, profile: string, clubSpeed: real, ballSpeed: real, smash: real, launch: real,
                   spin: int, carry: int, total: int)
      modifies this
      ensures shots == old(shots) + [NewShot(now, profile, clubSpeed, ballSpeed, smash, launch, spin, carry, total)]
    {
      var shot := NewShot(now, profile, clubSpeed, ballSpeed, smash, launch, spin, carry, total);
      shots := shots + [shot];
    }

    method GetHistoryForProfile(profile: string) returns (r: seq<Shot>)
      ensures r == HistoryForProfile(shots, profile)
    {
      r := Reversed(OfProfile(shots, profile));
    }

    method GetAllHistory() returns (r: seq<Shot>)
      ensures r == Reversed(shots)
    {
      r := Reversed(shots);
    }

    method ClearAllHistory()
      modifies this
      ensures shots == []
    {
      shots := [];
    }

    method ClearProfileHistory(profile: string)
      modifies this
      ensures shots == NotOfProfile(old(shots), profile)
    {
      shots := NotOfProfile(shots, profile);
    }
  }
}
