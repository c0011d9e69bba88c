/** The UPI-ID check shared by the payment and top-up forms: the regular expression
    `^[\w.-]+@[\w.-]+$`, once as the automaton a matcher runs and once as the language it denotes. */
module UpiId {
  import opened Wrappers

  /** `\w` without the `u` flag: ASCII letters, digits and underscore. */
  predicate IsWordChar(c: char) {
    ('A' <= c <= 'Z') || ('a' <= c <= 'z') || ('0' <= c <= '9') || c == '_'
  }

  /** The character class `[\w.-]`. */
  predicate IsUpiChar(c: char) {
    IsWordChar(c) || c == '.' || c == '-'
  }

  predicate AllUpiChars(s: string) {
    forall i :: 0 <= i < |s| ==> IsUpiChar(s[i])
  }

  /** `s` is `X@Y` with the `@` at offset `k` and X, Y non-empty runs of the class. */
  predicate SplitsAt(s: string, k: int) {
    0 < k < |s| - 1 && s[k] == '@' && AllUpiChars(s[..k]) && AllUpiChars(s[k + 1..])
  }

  /** The language of `^[\w.-]+@[\w.-]+$`. */
  ghost predicate WellFormed(s: string) {
    exists k :: SplitsAt(s, k)
  }

  /** Where the matcher is: before the first character, inside the part before `@`, just after `@`,
      or inside the part after `@`. */
  datatype Phase = Start | Local | AfterAt | Domain

  function Step(p: Phase, c: char): Option<Phase> {
    match p
    case Start => if IsUpiChar(c) then Some(Local) else None
    case Local => if IsUpiChar(c) then Some(Local) else if c == '@' then Some(AfterAt) else None
    case AfterAt => if IsUpiChar(c) then Some(Domain) else None
    case Domain => if IsUpiChar(c) then Some(Domain) else None
  }

  function Run(p: Phase, s: string): Option<Phase>
    decreases |s|
  {
    if s == [] then Some(p)
    else match Step(p, s[0])
      case None => None
      case Some(q) => Run(q, s[1..])
  }

  /** `/^[\w.-]+@[\w.-]+$/.test(s)` as the matcher runs it: the whole input must end in `Domain`. */
  predicate Matches(s: string) {
    Run(Start, s) == Some(Domain)
  }

  lemma {:induction false} RunDomain(s: string)
    ensures Run(Domain, s) == Some(Domain) <==> AllUpiChars(s)
  {
    if s != [] {
      RunDomain(s[1..]);
      if IsUpiChar(s[0]) && AllUpiChars(s[1..]) {
        assert forall i :: 1 <= i < |s| ==> s[i] == s[1..][i - 1];
      }
    }
  }

  lemma RunAfterAt(s: string)
    ensures Run(AfterAt, s) == Some(Domain) <==> s != [] && AllUpiChars(s)
  {
    if s != [] {
      RunDomain(s[1..]);
      if IsUpiChar(s[0]) && AllUpiChars(s[1..]) {
        assert forall i :: 1 <= i < |s| ==> s[i] == s[1..][i - 1];
      }
    }
  }

  /** From inside the local part, the matcher reaches `Domain` exactly when the rest of the input
      is `x@Y`, `x` a possibly empty run of the class and `Y` a non-empty one. */
  lemma {:induction false} RunLocalSplit(s: string)
    ensures Run(Local, s) == Some(Domain) <==> exists k :: LocalSplit(s, k)
  {
    if s == [] {
    } else if s[0] == '@' {
      RunAfterAt(s[1..]);
      if Run(Local, s) == Some(Domain) {
        assert s[..0] == [];
        assert LocalSplit(s, 0);
      }
    } else if IsUpiChar(s[0]) {
      RunLocalSplit(s[1..]);
      if exists k :: LocalSplit(s, k) {
        var k :| LocalSplit(s, k);
        assert k > 0;
        assert s[1..][..k - 1] == s[..k][1..];
        assert s[1..][k - 1 + 1..] == s[k + 1..];
        assert LocalSplit(s[1..], k - 1);
      }
      if exists j :: LocalSplit(s[1..], j) {
        var j :| LocalSplit(s[1..], j);
        assert s[..j + 1] == [s[0]] + s[1..][..j];
        assert s[1..][j + 1..] == s[j + 2..];
        assert LocalSplit(s, j + 1);
      }
    }
  }

  /** `s` is `x@Y`: `x` a possibly empty run of the class ending before offset `k`, `Y` non-empty. */
  predicate LocalSplit(s: string, k: int) {
    0 <= k < |s| - 1 && s[k] == '@' && AllUpiChars(s[..k]) && AllUpiChars(s[k + 1..])
  }

  /** The matcher accepts exactly the language of the expression. */
  lemma MatchesIff(s: string)
    ensures Matches(s) <==> WellFormed(s)
  {
    if s != [] && IsUpiChar(s[0]) {
      RunLocalSplit(s[1..]);
      if exists j :: LocalSplit(s[1..], j) {
        var j :| LocalSplit(s[1..], j);
        assert s[..j + 1] == [s[0]] + s[1..][..j];
        assert s[1..][j + 1..] == s[j + 2..];
        assert SplitsAt(s, j + 1);
      }
      if exists k :: SplitsAt(s, k) {
        var k :| SplitsAt(s, k);
        assert s[1..][..k - 1] == s[..k][1..];
        assert s[1..][k - 1 + 1..] == s[k + 1..];
        assert LocalSplit(s[1..], k - 1);
      }
    }
  }

  /** An accepted id has exactly one `@`: the class does not contain it. */
  lemma OneAt(s: string, k: int)
    requires SplitsAt(s, k)
    ensures forall j :: 0 <= j < |s| && s[j] == '@' ==> j == k
  {
  }

  /** Sample ids: `name@bank` is accepted; a missing domain, a missing `@` and the empty id are not. */
  lemma Examples()
    ensures WellFormed("name@bank")
    ensures !WellFormed("name@") && !WellFormed("name") && !WellFormed("")
  {
    assert SplitsAt("name@bank", 4);
    MatchesIff("name@");
    MatchesIff("name");
    MatchesIff("");
  }
}
