/**
 * The underscore-delimited player payload attached to every wagering event
 * ("alice_10.00_10.00_0_0_p1_b1_USD_0"), and the composite bet key built from
 * two of its fields.
 *
 * `Split` is the string split on '_' as the program performs it: every
 * separator ends one piece and starts another, so "" gives one empty piece
 * and "a_" gives "a" and "". `Join` glues the pieces back together; the two
 * lemmas `JoinSplit` and `SplitJoin` show they are inverse to each other on
 * non-empty sequences of separator-free pieces.
 */
module PlayerData {

  import opened Wrappers

  /** The field separator of the payload and of the bet key. */
  const Separator: char := '_'

  /** A payload is accepted only when it has at least this many fields. */
  const MinFields: nat := 9

  predicate NoSeparator(s: string) {
    Separator !in s
  }

  /** How many separators `s` holds. */
  function Occurrences(s: string): nat {
    if s == "" then 0
    else (if s[0] == Separator then 1 else 0) + Occurrences(s[1..])
  }

  /** The pieces of `s` between separators, in order. */
  function Split(s: string): (parts: seq<string>)
    ensures |parts| >= 1
    ensures forall i | 0 <= i < |parts| :: NoSeparator(parts[i])
  {
    if s == "" then [""]
    else
      var rest := Split(s[1..]);
      if s[0] == Separator then [""] + rest
      else [[s[0]] + rest[0]] + rest[1..]
  }

  /** The pieces glued together with one separator between neighbours. */
  function Join(parts: seq<string>): string
    requires |parts| >= 1
  {
    if |parts| == 1 then parts[0]
    else parts[0] + [Separator] + Join(parts[1..])
  }

  /** Splitting yields one more piece than there are separators. */
  lemma {:induction false} SplitCount(s: string)
    ensures |Split(s)| == Occurrences(s) + 1
  {
    if s != "" {
      SplitCount(s[1..]);
    }
  }

  lemma {:induction false} JoinConsChar(c: char, parts: seq<string>)
    requires |parts| >= 1
    ensures Join([[c] + parts[0]] + parts[1..]) == [c] + Join(parts)
  {
    var cons := [[c] + parts[0]] + parts[1..];
    if |parts| > 1 {
      assert cons[1..] == parts[1..];
    }
  }

  /** Joining the pieces of a split gives back the original string. */
  lemma {:induction false} JoinSplit(s: string)
    ensures Join(Split(s)) == s
  {
    if s != "" {
      var rest := Split(s[1..]);
      JoinSplit(s[1..]);
      if s[0] == Separator {
        assert ([""] + rest)[1..] == rest;
        assert s == [s[0]] + s[1..];
      } else {
        JoinConsChar(s[0], rest);
        assert s == [s[0]] + s[1..];
      }
    }
  }

  /** A separator-free prefix is glued onto the first piece of what follows. */
  lemma {:induction false} SplitPrefix(p: string, t: string)
    requires NoSeparator(p)
    ensures Split(p + t) == [p + Split(t)[0]] + Split(t)[1..]
  {
    if p != "" {
      SplitPrefix(p[1..], t);
      assert (p + t)[1..] == p[1..] + t;
      assert [p[0]] + (p[1..] + Split(t)[0]) == p + Split(t)[0];
    } else {
      assert p + t == t;
      assert p + Split(t)[0] == Split(t)[0];
      assert Split(t) == [Split(t)[0]] + Split(t)[1..];
    }
  }

  /** Splitting a join of separator-free pieces gives back the pieces. */
  lemma {:induction false} SplitJoin(parts: seq<string>)
    requires |parts| >= 1
    requires forall i | 0 <= i < |parts| :: NoSeparator(parts[i])
    ensures Split(Join(parts)) == parts
  {
    if |parts| == 1 {
      SplitPrefix(parts[0], "");
      assert parts[0] + "" == parts[0];
    } else {
      var tail := Join(parts[1..]);
      SplitJoin(parts[1..]);
      assert Split([Separator] + tail) == [""] + parts[1..];
      SplitPrefix(parts[0], [Separator] + tail);
      assert parts[0] + [Separator] + tail == parts[0] + ([Separator] + tail);
      assert parts[0] + "" == parts[0];
    }
  }

  /**
   * The payload's fields, or None when it has fewer than `MinFields` of them.
   * The fields are exactly the separator-free pieces that join back to the
   * payload, so nothing is dropped or reordered.
   */
  function ParsePlayerData(data: string): (r: Option<seq<string>>)
    ensures r.Some? <==> Occurrences(data) + 1 >= MinFields
    ensures r.Some? ==> |r.value| >= MinFields && Join(r.value) == data
    ensures r.Some? ==> forall i | 0 <= i < |r.value| :: NoSeparator(r.value[i])
  {
    SplitCount(data);
    JoinSplit(data);
    var parts := Split(data);
    if |parts| >= MinFields then Some(parts) else None
  }

  /** The key under which a bet is stored: player id, separator, bet number. */
  function Key(playerId: string, betNumber: string): (key: string)
    ensures |key| == |playerId| + 1 + |betNumber|
    ensures key[..|playerId|] == playerId && key[|playerId|] == Separator
    ensures key[|playerId| + 1..] == betNumber
  {
    playerId + [Separator] + betNumber
  }

  /** A key made of separator-free parts splits back into exactly those parts. */
  lemma KeySplits(playerId: string, betNumber: string)
    requires NoSeparator(playerId) && NoSeparator(betNumber)
    ensures Split(Key(playerId, betNumber)) == [playerId, betNumber]
  {
    SplitJoin([playerId, betNumber]);
    assert Join([playerId, betNumber]) == Key(playerId, betNumber) by {
      assert [playerId, betNumber][1..] == [betNumber];
    }
  }

  /**
   * Keys never collide: two separator-free (player id, bet number) pairs
   * give the same key only when they are the same pair.
   */
  lemma KeyInjective(p1: string, b1: string, p2: string, b2: string)
    requires NoSeparator(p1) && NoSeparator(b1) && NoSeparator(p2) && NoSeparator(b2)
    requires Key(p1, b1) == Key(p2, b2)
    ensures p1 == p2 && b1 == b2
  {
    KeySplits(p1, b1);
    KeySplits(p2, b2);
  }
}
