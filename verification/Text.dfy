/** The handful of string operations the parsers rely on: trimming, splitting on
    one character and joining again, with the laws that relate them. */
module Text {

  /** The white space that trimming removes. */
  predicate IsSpace(c: char) {
    || '\t' <= c <= '\r' || c == ' ' || c == '\U{85}' || c == '\U{A0}' || c == '\U{1680}'
    || '\U{2000}' <= c <= '\U{200A}' || c == '\U{2028}' || c == '\U{2029}' || c == '\U{202F}'
    || c == '\U{205F}' || c == '\U{3000}'
  }

  predicate IsDigit(c: char) { '0' <= c <= '9' }

  predicate AllDigits(s: string) {
    s != "" && forall i | 0 <= i < |s| :: IsDigit(s[i])
  }

  function TrimLeft(s: string): (r: string)
    ensures r != "" ==> !IsSpace(r[0])
  {
    if s != "" && IsSpace(s[0]) then TrimLeft(s[1..]) else s
  }

  function TrimRight(s: string): (r: string)
    ensures r != "" ==> !IsSpace(r[|r| - 1])
    ensures r != "" ==> s != "" && r[0] == s[0]
  {
    if s != "" && IsSpace(s[|s| - 1]) then TrimRight(s[..|s| - 1]) else s
  }

  function Trim(s: string): (r: string)
    ensures r != "" ==> !IsSpace(r[0]) && !IsSpace(r[|r| - 1])
  {
    TrimRight(TrimLeft(s))
  }

  predicate Trimmed(s: string) { Trim(s) == s }

  lemma TrimIsIdempotent(s: string)
    ensures Trimmed(Trim(s))
  {
  }

  function Split(s: string, sep: char): (parts: seq<string>)
    ensures |parts| >= 1
    ensures forall p | p in parts :: sep !in p
  {
    if s == "" then [""]
    else
      var rest := Split(s[1..], sep);
      if s[0] == sep then [""] + rest else [[s[0]] + rest[0]] + rest[1..]
  }

  function Join(parts: seq<string>, sep: char): string
  {
    if parts == [] then ""
    else if |parts| == 1 then parts[0]
    else parts[0] + [sep] + Join(parts[1..], sep)
  }

  /** Joining what a split produced restores the text. */
  lemma {:induction false} JoinSplit(s: string, sep: char)
    ensures Join(Split(s, sep), sep) == s
  {
    if s != "" {
      JoinSplit(s[1..], sep);
      var rest := Split(s[1..], sep);
      if s[0] == sep {
        assert ([""] + rest)[1..] == rest;
      } else {
        var parts := [[s[0]] + rest[0]] + rest[1..];
        assert parts[1..] == rest[1..];
      }
    }
  }

  lemma {:induction false} SplitWithoutSeparator(s: string, sep: char)
    requires sep !in s
    ensures Split(s, sep) == [s]
  {
    if s != "" {
      SplitWithoutSeparator(s[1..], sep);
      assert [s[0]] + s[1..] == s;
    }
  }

  /** Splitting distributes over a separator, wherever it stands. */
  lemma {:induction false} SplitAtSeparator(a: string, sep: char, b: string)
    ensures Split(a + [sep] + b, sep) == Split(a, sep) + Split(b, sep)
  {
    var whole := a + [sep] + b;
    if a == "" {
      assert whole[1..] == b;
    } else {
      assert whole[1..] == a[1..] + [sep] + b;
      SplitAtSeparator(a[1..], sep, b);
      var rest, tail := Split(a[1..], sep), Split(b, sep);
      assert (rest + tail)[1..] == rest[1..] + tail;
      assert Split(whole, sep) == Split(a, sep) + tail by {
        if a[0] == sep {
          assert [""] + (rest + tail) == ([""] + rest) + tail;
        } else {
          assert [[a[0]] + rest[0]] + (rest[1..] + tail) == ([[a[0]] + rest[0]] + rest[1..]) + tail;
        }
      }
    }
  }

  /** The text before the first separator is the first part. */
  lemma {:induction false} FirstPart(s: string, sep: char, i: nat)
    requires i < |s| && s[i] == sep && sep !in s[..i]
    ensures Split(s, sep)[0] == s[..i]
  {
    SplitAtSeparator(s[..i], sep, s[i + 1..]);
    assert s == s[..i] + [sep] + s[i + 1..];
    SplitWithoutSeparator(s[..i], sep);
  }

  lemma TrimDropsLeadingSpace(c: char, s: string)
    requires IsSpace(c)
    ensures Trim([c] + s) == Trim(s)
  {
    assert ([c] + s)[1..] == s;
  }

  lemma {:induction false} TrimDropsTrailingSpace(s: string, c: char)
    requires IsSpace(c)
    ensures Trim(s + [c]) == Trim(s)
  {
    if s == "" {
      assert TrimLeft("" + [c]) == "";
    } else if IsSpace(s[0]) {
      TrimDropsTrailingSpace(s[1..], c);
      assert (s + [c])[1..] == s[1..] + [c];
    } else {
      assert (s + [c])[..|s|] == s;
    }
  }

  /** Appending a character that is not the separator extends the last part. */
  lemma {:induction false} SplitSnoc(s: string, sep: char, c: char)
    requires c != sep
    ensures |Split(s + [c], sep)| == |Split(s, sep)|
    ensures forall i | 0 <= i < |Split(s, sep)| - 1 :: Split(s + [c], sep)[i] == Split(s, sep)[i]
    ensures Last(Split(s + [c], sep)) == Last(Split(s, sep)) + [c]
  {
    if s == "" {
      assert [c][1..] == "" && s + [c] == [c];
      assert Split([c], sep) == [[c] + ""] + [""][1..];
    } else {
      var rest, longer := Split(s[1..], sep), Split(s[1..] + [c], sep);
      SplitSnoc(s[1..], sep, c);
      assert (s + [c])[0] == s[0] && (s + [c])[1..] == s[1..] + [c];
      if s[0] == sep {
        assert Split(s + [c], sep) == [""] + longer && Split(s, sep) == [""] + rest;
      } else {
        assert Split(s + [c], sep) == [[s[0]] + longer[0]] + longer[1..];
        assert Split(s, sep) == [[s[0]] + rest[0]] + rest[1..];
      }
    }
  }

  function Last(parts: seq<string>): string
    requires parts != []
  {
    parts[|parts| - 1]
  }

  /** Equal up to white space around the parts. */
  predicate TrimAlike(a: seq<string>, b: seq<string>) {
    |a| == |b| && forall i | 0 <= i < |a| :: Trim(a[i]) == Trim(b[i])
  }

  lemma {:induction false} TrimLeftKeepsParts(s: string, sep: char)
    requires !IsSpace(sep)
    ensures TrimAlike(Split(TrimLeft(s), sep), Split(s, sep))
  {
    if s != "" && IsSpace(s[0]) {
      TrimLeftKeepsParts(s[1..], sep);
      var rest := Split(s[1..], sep);
      TrimDropsLeadingSpace(s[0], rest[0]);
      var longer := [[s[0]] + rest[0]] + rest[1..];
      assert Split(s, sep) == longer && TrimLeft(s) == TrimLeft(s[1..]);
      forall i | 0 <= i < |rest| ensures Trim(rest[i]) == Trim(longer[i]) {
        assert i > 0 ==> longer[i] == rest[i];
      }
    }
  }

  lemma TrimSnocAlike(s: string, sep: char, c: char)
    requires IsSpace(c) && c != sep
    ensures TrimAlike(Split(s, sep), Split(s + [c], sep))
  {
    SplitSnoc(s, sep, c);
    TrimDropsTrailingSpace(Last(Split(s, sep)), c);
  }

  lemma {:induction false} TrimRightKeepsParts(s: string, sep: char)
    requires !IsSpace(sep)
    ensures TrimAlike(Split(TrimRight(s), sep), Split(s, sep))
  {
    if s != "" && IsSpace(s[|s| - 1]) {
      var front, c := s[..|s| - 1], s[|s| - 1];
      assert s == front + [c];
      TrimRightKeepsParts(front, sep);
      TrimSnocAlike(front, sep, c);
      assert TrimRight(s) == TrimRight(front);
    }
  }

  /** Part by part, splitting a trimmed text and trimming gives the same as splitting the text. */
  lemma TrimKeepsParts(s: string, sep: char)
    requires !IsSpace(sep)
    ensures TrimAlike(Split(Trim(s), sep), Split(s, sep))
  {
    TrimLeftKeepsParts(s, sep);
    TrimRightKeepsParts(TrimLeft(s), sep);
  }
}
