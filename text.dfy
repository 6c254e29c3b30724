/** String helpers used by the sensor names and ids: decimal formatting of a
    period, substring search, character replacement and title casing, each the
    ASCII restriction of the Python operation it stands for. */
module Text {

  predicate IsDigit(c: char) { '0' <= c <= '9' }

  function DigitChar(d: nat): (c: char)
    requires d < 10
    ensures IsDigit(c)
  {
    ['0', '1', '2', '3', '4', '5', '6', '7', '8', '9'][d]
  }

  function DigitValue(c: char): nat
    requires IsDigit(c)
  {
    (c as int - '0' as int) as nat
  }

  lemma DigitRoundTrip(d: nat)
    requires d < 10
    ensures DigitValue(DigitChar(d)) == d
  {
  }

  /** Python's str() of a non-negative int: its decimal digits, most
      significant first, without leading zeros. */
  function Decimal(n: nat): (s: string)
    ensures |s| >= 1
    ensures forall i :: 0 <= i < |s| ==> IsDigit(s[i])
    ensures n >= 10 <==> |s| >= 2
    ensures n > 0 ==> s[0] != '0'
  {
    if n < 10 then [DigitChar(n)] else Decimal(n / 10) + [DigitChar(n % 10)]
  }

  /** Reading the digits back gives the number: the formatting loses nothing. */
  function ParseDecimal(s: string): nat
    requires forall i :: 0 <= i < |s| ==> IsDigit(s[i])
  {
    if s == [] then 0 else 10 * ParseDecimal(s[..|s| - 1]) + DigitValue(s[|s| - 1])
  }

  lemma {:induction false} DecimalRoundTrip(n: nat)
    ensures ParseDecimal(Decimal(n)) == n
  {
    var s := Decimal(n);
    if n < 10 {
      DigitRoundTrip(n);
    } else {
      assert s[..|s| - 1] == Decimal(n / 10);
      DecimalRoundTrip(n / 10);
      DigitRoundTrip(n % 10);
    }
  }

  lemma DecimalInjective(m: nat, n: nat)
    requires Decimal(m) == Decimal(n)
    ensures m == n
  {
    DecimalRoundTrip(m);
    DecimalRoundTrip(n);
  }

  function StartsWith(s: string, t: string): bool
  {
    |t| <= |s| && s[..|t|] == t
  }

  /** t occurs in s starting at position i. */
  predicate OccursAt(s: string, t: string, i: nat)
  {
    i + |t| <= |s| && s[i..i + |t|] == t
  }

  /** Python's `t in s` for strings: t occurs as a contiguous block of s. */
  function Contains(s: string, t: string): (b: bool)
    ensures b <==> exists i: nat :: OccursAt(s, t, i)
    decreases |s|
  {
    if StartsWith(s, t) then
      assert OccursAt(s, t, 0);
      true
    else if s == [] then
      false
    else
      var rest := Contains(s[1..], t);
      assert forall i: nat :: OccursAt(s, t, i + 1) <==> OccursAt(s[1..], t, i) by {
        forall i: nat ensures OccursAt(s, t, i + 1) <==> OccursAt(s[1..], t, i) {
          if i + 1 + |t| <= |s| {
            var here, there := s[i + 1..i + 1 + |t|], s[1..][i..i + |t|];
            assert forall k :: 0 <= k < |t| ==> here[k] == there[k];
            assert here == there;
          }
        }
      }
      assert (exists i: nat :: OccursAt(s, t, i)) ==> rest by {
        if exists i: nat :: OccursAt(s, t, i) {
          var i: nat :| OccursAt(s, t, i);
          assert i != 0;
          assert OccursAt(s[1..], t, i - 1);
        }
      }
      assert rest ==> exists i: nat :: OccursAt(s, t, i) by {
        if rest {
          var j: nat :| OccursAt(s[1..], t, j);
          assert OccursAt(s, t, j + 1);
        }
      }
      rest
  }

  /** Python's s.replace(a, b) for single characters. */
  function ReplaceChar(s: string, a: char, b: char): string
  {
    seq(|s|, i requires 0 <= i < |s| => if s[i] == a then b else s[i])
  }

  predicate IsUpper(c: char) { 'A' <= c <= 'Z' }
  predicate IsLower(c: char) { 'a' <= c <= 'z' }
  predicate IsLetter(c: char) { IsUpper(c) || IsLower(c) }

  function ToUpper(c: char): char
  {
    if IsLower(c) then (c as int - 'a' as int + 'A' as int) as char else c
  }

  function ToLower(c: char): char
  {
    if IsUpper(c) then (c as int - 'A' as int + 'a' as int) as char else c
  }

  /** The title-cased character at position i: upper case when it starts a
      run of letters, lower case inside one. */
  function TitleCharAt(s: string, i: nat): char
    requires i < |s|
  {
    if i == 0 || !IsLetter(s[i - 1]) then ToUpper(s[i]) else ToLower(s[i])
  }

  /** Python's str.title() restricted to ASCII: the first letter of every run
      of letters is upper case, the others lower case. */
  function Title(s: string): string
  {
    seq(|s|, i requires 0 <= i < |s| => TitleCharAt(s, i))
  }

  predicate AllLower(w: string)
  {
    forall i :: 0 <= i < |w| ==> IsLower(w[i])
  }

  /** A lower-case word is title-cased by capitalising its first letter. */
  lemma TitleOfWord(w: string)
    requires |w| > 0 && AllLower(w)
    ensures Title(w) == [ToUpper(w[0])] + w[1..]
  {
    var r, t := Title(w), [ToUpper(w[0])] + w[1..];
    forall i | 0 <= i < |w| ensures r[i] == t[i] {
      if i > 0 { assert IsLetter(w[i - 1]); }
    }
  }

  /** A space starts a new word: title casing works word by word. */
  lemma TitleOfWords(a: string, b: string)
    ensures Title(a + " " + b) == Title(a) + " " + Title(b)
  {
    var s := a + " " + b;
    var r, t := Title(s), Title(a) + " " + Title(b);
    forall i | 0 <= i < |s| ensures r[i] == t[i] {
      if i < |a| {
        assert TitleCharAt(s, i) == TitleCharAt(a, i);
      } else if i > |a| + 1 {
        assert TitleCharAt(s, i) == TitleCharAt(b, i - |a| - 1);
      }
    }
  }

  /** Title casing a snake_case name of one or two lower-case words after
      replacing its underscore by a space. */
  lemma TitleOfSnake(a: string, b: string)
    requires |a| > 0 && AllLower(a) && |b| > 0 && AllLower(b)
    ensures Title(ReplaceChar(a, '_', ' ')) == [ToUpper(a[0])] + a[1..]
    ensures Title(ReplaceChar(a + "_" + b, '_', ' ')) == [ToUpper(a[0])] + a[1..] + " " + [ToUpper(b[0])] + b[1..]
  {
    ReplaceLower(a);
    ReplaceLower(b);
    var ab := a + "_" + b;
    assert ReplaceChar(ab, '_', ' ') == a + " " + b by {
      var r := ReplaceChar(ab, '_', ' ');
      forall i | 0 <= i < |ab| ensures r[i] == (a + " " + b)[i] {
        if i < |a| { assert ab[i] == a[i]; } else if i > |a| { assert ab[i] == b[i - |a| - 1]; }
      }
    }
    TitleOfWords(a, b);
    TitleOfWord(a);
    TitleOfWord(b);
  }

  lemma ReplaceLower(w: string)
    requires AllLower(w)
    ensures ReplaceChar(w, '_', ' ') == w
  {
    var r := ReplaceChar(w, '_', ' ');
    forall i | 0 <= i < |w| ensures r[i] == w[i] { }
  }
}
