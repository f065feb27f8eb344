/** The `ups.status` variable of a UPS snapshot and the on-battery test made from it. */
module StatusFlags {

  import opened Optional

  /** A snapshot of UPS variables, as the status server lists them. */
  type Snapshot = map<string, string>

  const StatusKey: string := "ups.status"
  const ChargeKey: string := "battery.charge"

  /** `d.get(k)`: the value stored under `k`, or `None` when the key is missing. */
  function Lookup(m: Snapshot, k: string): (r: Option<string>)
    ensures r.Some? <==> k in m
    ensures r.Some? ==> r.value == m[k]
  {
    if k in m then Some(m[k]) else None
  }

  /** Index of the first space of `s`. */
  function FirstSpace(s: string): (k: nat)
    requires ' ' in s
    ensures k < |s| && s[k] == ' '
    ensures ' ' !in s[..k]
  {
    if s[0] == ' ' then 0
    else
      assert ' ' in s[1..] by { var i :| 0 <= i < |s| && s[i] == ' '; assert s[1..][i - 1] == ' '; }
      var k := 1 + FirstSpace(s[1..]);
      assert s[..k] == [s[0]] + s[1..][..k - 1];
      k
  }

  /** Python's `s.split(" ")`: cut at every single space, keeping empty pieces. */
  function Split(s: string): (r: seq<string>)
    ensures |r| >= 1
    decreases |s|
  {
    if ' ' !in s then [s]
    else
      var k := FirstSpace(s);
      [s[..k]] + Split(s[k + 1..])
  }

  /** No piece of the split contains a space. */
  lemma {:induction false} PiecesHaveNoSpace(s: string)
    ensures forall i :: 0 <= i < |Split(s)| ==> ' ' !in Split(s)[i]
    decreases |s|
  {
    if ' ' in s {
      var k := FirstSpace(s);
      PiecesHaveNoSpace(s[k + 1..]);
      assert Split(s) == [s[..k]] + Split(s[k + 1..]);
    }
  }

  /** `" ".join(ts)`: the inverse of Split. */
  function Join(ts: seq<string>): (s: string)
    requires |ts| >= 1
  {
    if |ts| == 1 then ts[0] else ts[0] + " " + Join(ts[1..])
  }

  /** Joining the pieces with single spaces gives the original string back. */
  lemma {:induction false} JoinSplit(s: string)
    ensures Join(Split(s)) == s
    decreases |s|
  {
    if ' ' in s {
      var k := FirstSpace(s);
      JoinSplit(s[k + 1..]);
      assert s == s[..k] + " " + s[k + 1..];
    }
  }

  /** `t` occurs in `s` at position `i` as a whole token: bounded by spaces or the ends of `s`. */
  ghost predicate TokenAt(s: string, t: string, i: int)
  {
    0 <= i && i + |t| <= |s| && s[i..i + |t|] == t &&
    (i == 0 || s[i - 1] == ' ') &&
    (i + |t| == |s| || s[i + |t|] == ' ')
  }

  /** No space comes before the first one. */
  lemma {:induction false} FirstSpaceIsFirst(s: string, j: int)
    requires 0 <= j < |s| && s[j] == ' '
    ensures FirstSpace(s) <= j
  {
    if s[0] != ' ' {
      assert s[1..][j - 1] == ' ';
      FirstSpaceIsFirst(s[1..], j - 1);
    }
  }

  /** A whole token starting a string that has a space is the first piece. */
  lemma LeadingToken(s: string, t: string)
    requires ' ' !in t && ' ' in s && TokenAt(s, t, 0)
    ensures t == s[..FirstSpace(s)]
  {
    var k := FirstSpace(s);
    assert forall j :: 0 <= j < |t| ==> t[j] != ' ';
    assert forall j :: 0 <= j < k ==> s[..k][j] != ' ';
    assert forall j :: 0 <= j < |t| ==> s[j] == t[j];
  }

  /** A token of the rest after the first space is a token of the whole string. */
  lemma ShiftToken(s: string, t: string, j: int)
    requires ' ' in s && TokenAt(s[FirstSpace(s) + 1..], t, j)
    ensures TokenAt(s, t, j + FirstSpace(s) + 1)
  {
    var k := FirstSpace(s);
    var rest := s[k + 1..];
    var i := j + k + 1;
    assert s[i..i + |t|] == rest[j..j + |t|];
    assert s[i - 1] == if j == 0 then s[k] else rest[j - 1];
    assert i + |t| < |s| ==> s[i + |t|] == rest[j + |t|];
  }

  /** Every piece of the split is a whole token of the string. */
  lemma {:induction false} PieceIsToken(s: string, t: string)
    requires t in Split(s)
    ensures exists i :: TokenAt(s, t, i)
    decreases |s|
  {
    if ' ' !in s {
      assert TokenAt(s, t, 0);
    } else {
      var k := FirstSpace(s);
      var rest := s[k + 1..];
      if t == s[..k] {
        assert TokenAt(s, t, 0);
      } else {
        assert t in Split(rest);
        PieceIsToken(rest, t);
        var j :| TokenAt(rest, t, j);
        ShiftToken(s, t, j);
      }
    }
  }

  /** Every space-free whole token of the string is one of the pieces of the split. */
  lemma {:induction false} TokenIsPiece(s: string, t: string, i: int)
    requires ' ' !in t && TokenAt(s, t, i)
    ensures t in Split(s)
    decreases |s|
  {
    if ' ' !in s {
      assert forall j :: 0 <= j < |s| ==> s[j] != ' ';
      assert i == 0 && i + |t| == |s|;
      assert t == s;
    } else {
      var k := FirstSpace(s);
      var rest := s[k + 1..];
      if i == 0 {
        LeadingToken(s, t);
      } else {
        FirstSpaceIsFirst(s, i - 1);
        var j := i - (k + 1);
        assert rest[j..j + |t|] == s[i..i + |t|];
        assert j > 0 ==> rest[j - 1] == s[i - 1];
        assert j + |t| < |rest| ==> rest[j + |t|] == s[i + |t|];
        TokenIsPiece(rest, t, j);
      }
    }
  }

  /** A space-free token is among the split pieces exactly when it occurs in the string as a whole token. */
  lemma InSplitIffTokenAt(s: string, t: string)
    requires ' ' !in t
    ensures t in Split(s) <==> exists i :: TokenAt(s, t, i)
  {
    if t in Split(s) {
      PieceIsToken(s, t);
    }
    if i :| TokenAt(s, t, i) {
      TokenIsPiece(s, t, i);
    }
  }

  /** The status tokens of a snapshot; a missing `ups.status` counts as the empty string. */
  function Flags(vars: Snapshot): (r: seq<string>)
    ensures StatusKey !in vars ==> r == [""]
  {
    Split(if StatusKey in vars then vars[StatusKey] else "")
  }

  /** `t in s.split(" ")`, decided one piece at a time. */
  predicate HasPiece(s: string, t: string)
    decreases |s|
  {
    if ' ' !in s then s == t
    else s[..FirstSpace(s)] == t || HasPiece(s[FirstSpace(s) + 1..], t)
  }

  /** The piece-by-piece test agrees with membership in the split. */
  lemma {:induction false} HasPieceIffInSplit(s: string, t: string)
    ensures HasPiece(s, t) <==> t in Split(s)
    decreases |s|
  {
    if ' ' in s {
      var k := FirstSpace(s);
      HasPieceIffInSplit(s[k + 1..], t);
      assert Split(s) == [s[..k]] + Split(s[k + 1..]);
    }
  }

  /** The UPS runs on battery: `"OB"` is one of the status tokens (a missing status has none). */
  predicate OnBattery(vars: Snapshot)
  {
    StatusKey in vars && HasPiece(vars[StatusKey], "OB")
  }

  /** The on-battery test is `"OB" in Flags(vars)`. */
  lemma OnBatteryIffInFlags(vars: Snapshot)
    ensures OnBattery(vars) <==> "OB" in Flags(vars)
  {
    if StatusKey in vars {
      HasPieceIffInSplit(vars[StatusKey], "OB");
    } else {
      assert Flags(vars) == [""];
    }
  }

  /** On battery exactly when `"OB"` is a whole token of `ups.status`, never a part of a longer token. */
  lemma OnBatteryIffWholeToken(vars: Snapshot)
    ensures OnBattery(vars) <==>
      StatusKey in vars && exists i :: TokenAt(vars[StatusKey], "OB", i)
  {
    var status := if StatusKey in vars then vars[StatusKey] else "";
    InSplitIffTokenAt(status, "OB");
    OnBatteryIffInFlags(vars);
  }
}
