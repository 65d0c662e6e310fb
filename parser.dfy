/** The expense parser of bot.py (`parse_expense`): a hand-written scanner that
    does what `re.search(r"₹?(\d+)\s*(.*)", text)` followed by
    `group(2).strip().capitalize()` and the "Misc" fallback does.

    Character classes are restricted to ASCII: `\d` is '0'..'9', `\s` and
    `str.strip()` use the ASCII characters Python counts as whitespace, and
    `capitalize` maps only the letters 'a'..'z' and 'A'..'Z'. */
module ExpenseParser {

  /** The rupee sign (U+20B9) that may precede the amount. */
  const Rupee: char := '\U{20B9}'

  /** The note used when the text after the amount is blank. */
  const DefaultNote: string := "Misc"

  predicate IsDigit(c: char) { '0' <= c <= '9' }

  /** Space, \t, \n, \v, \f, \r and the separators \x1c..\x1f: the ASCII
      characters that both `\s` and `str.strip()` treat as whitespace. */
  predicate IsSpace(c: char) { c == ' ' || '\t' <= c <= '\r' || '\U{1C}' <= c <= '\U{1F}' }

  predicate IsUpper(c: char) { 'A' <= c <= 'Z' }

  predicate IsLower(c: char) { 'a' <= c <= 'z' }

  /** ASCII upper-casing: a lower-case letter becomes its capital, anything
      else is kept. */
  function ToUpper(c: char): (u: char)
    ensures !IsLower(u)
    ensures IsLower(c) ==> IsUpper(u) && u as int == c as int - 32
    ensures !IsLower(c) ==> u == c
  {
    if IsLower(c) then (c as int - 'a' as int + 'A' as int) as char else c
  }

  /** ASCII lower-casing: a capital becomes its lower-case letter, anything
      else is kept. */
  function ToLower(c: char): (l: char)
    ensures !IsUpper(l)
    ensures IsUpper(c) ==> IsLower(l) && l as int == c as int + 32
    ensures !IsUpper(c) ==> l == c
  {
    if IsUpper(c) then (c as int - 'A' as int + 'a' as int) as char else c
  }

  predicate AllDigits(s: string) { forall k | 0 <= k < |s| :: IsDigit(s[k]) }

  predicate AllSpace(s: string) { forall k | 0 <= k < |s| :: IsSpace(s[k]) }

  predicate NoDigit(s: string) { forall k | 0 <= k < |s| :: !IsDigit(s[k]) }

  /** The text holds no line break. */
  predicate OneLine(s: string) { forall k | 0 <= k < |s| :: s[k] != '\n' }

  /** Result of `parse_expense`: `(None, None)` or `(amount, note)`. */
  datatype Parsed = NotAnExpense | Expense(amount: string, note: string)

  /** The character classes the scanner runs over: `\d`, its complement,
      `\s`, and what the regex `.` matches (everything but a line feed). */
  datatype CharClass = Digits | NonDigits | Blanks | LineChars

  predicate InClass(c: char, cls: CharClass) {
    match cls
    case Digits => IsDigit(c)
    case NonDigits => !IsDigit(c)
    case Blanks => IsSpace(c)
    case LineChars => c != '\n'
  }

  /** The index of the first character at or after `from` outside `cls`, or
      |s| when there is none: a greedy `cls*` starting at `from`. */
  function SkipWhile(s: string, from: nat, cls: CharClass): (i: nat)
    requires from <= |s|
    ensures from <= i <= |s|
    ensures forall k | from <= k < i :: InClass(s[k], cls)
    ensures i == |s| || !InClass(s[i], cls)
    decreases |s| - from
  {
    if from == |s| || !InClass(s[from], cls) then from else SkipWhile(s, from + 1, cls)
  }

  /** The index `j` such that s[j..hi] is the longest run of `cls` characters
      ending at `hi` that does not reach below `lo`. */
  function SkipBackWhile(s: string, lo: nat, hi: nat, cls: CharClass): (j: nat)
    requires lo <= hi <= |s|
    ensures lo <= j <= hi
    ensures forall k | j <= k < hi :: InClass(s[k], cls)
    ensures j == lo || !InClass(s[j - 1], cls)
    decreases hi
  {
    if hi == lo || !InClass(s[hi - 1], cls) then hi else SkipBackWhile(s, lo, hi - 1, cls)
  }

  /** `r` is `s` with a blank prefix and a blank suffix removed and no blank
      character left at either end: what Python's `str.strip()` returns. */
  ghost predicate StrippedFrom(s: string, r: string) {
    exists i, j | 0 <= i <= j <= |s| ::
      && r == s[i..j]
      && (forall k | 0 <= k < i :: IsSpace(s[k]))
      && (forall k | j <= k < |s| :: IsSpace(s[k]))
      && (i < j ==> !IsSpace(s[i]) && !IsSpace(s[j - 1]))
  }

  /** `str.strip()` with no argument. */
  function Strip(s: string): (r: string)
    ensures |r| <= |s|
    ensures r == [] <==> AllSpace(s)
  {
    var i := SkipWhile(s, 0, Blanks);
    var j := SkipBackWhile(s, i, |s|, Blanks);
    s[i..j]
  }

  /** Strip has the strip property. */
  lemma StripIsStrippedFrom(s: string)
    ensures StrippedFrom(s, Strip(s))
  {
    var i := SkipWhile(s, 0, Blanks);
    var j := SkipBackWhile(s, i, |s|, Blanks);
    assert s[i..j] == Strip(s);
  }

  /** `str.capitalize()`: the first character in upper case, every other
      character in lower case. */
  function Capitalize(s: string): (r: string)
    ensures |r| == |s|
  {
    if s == [] then []
    else [ToUpper(s[0])] + seq(|s| - 1, k requires 0 <= k < |s| - 1 => ToLower(s[k + 1]))
  }

  /** Stripping and capitalizing never introduce a line break. */
  lemma StripCapitalizeKeepsOneLine(raw: string)
    ensures OneLine(raw) ==> OneLine(Capitalize(Strip(raw)))
  {
    if OneLine(raw) {
      var i := SkipWhile(raw, 0, Blanks);
      var j := SkipBackWhile(raw, i, |raw|, Blanks);
      var t := raw[i..j];
      assert Strip(raw) == t;
      var n := Capitalize(t);
      forall k | 0 <= k < |n| ensures n[k] != '\n' {
        assert t[k] == raw[i + k];
        if k == 0 { assert n[0] == ToUpper(t[0]); } else { assert n[k] == ToLower(t[k]); }
      }
    }
  }

  /** `note.strip().capitalize()`, with "Misc" in place of an empty result. */
  function FinishNote(raw: string): (note: string)
    ensures note != []
    ensures AllSpace(raw) ==> note == DefaultNote
    ensures !AllSpace(raw) ==> note == Capitalize(Strip(raw))
    ensures OneLine(raw) ==> OneLine(note)
  {
    StripCapitalizeKeepsOneLine(raw);
    var n := Capitalize(Strip(raw));
    if n == [] then DefaultNote else n
  }

  /** `parse_expense(text)`: the first run of digits is the amount; after the
      whitespace that follows it, the rest of that line is the raw note. */
  function ParseExpense(text: string): (r: Parsed)
    ensures r.NotAnExpense? <==> NoDigit(text)
    ensures r.Expense? ==> r.amount != [] && AllDigits(r.amount)
    ensures r.Expense? ==> r.note != [] && OneLine(r.note)
  {
    var d := SkipWhile(text, 0, NonDigits);
    if d == |text| then NotAnExpense
    else
      var e := SkipWhile(text, d, Digits);
      var w := SkipWhile(text, e, Blanks);
      var l := SkipWhile(text, w, LineChars);
      assert AllDigits(text[d..e]) by {
        forall k | 0 <= k < e - d ensures IsDigit(text[d..e][k]) { assert text[d..e][k] == text[d + k]; }
      }
      assert OneLine(text[w..l]) by {
        forall k | 0 <= k < l - w ensures text[w..l][k] != '\n' { assert text[w..l][k] == text[w + k]; }
      }
      Expense(text[d..e], FinishNote(text[w..l]))
  }

  // ---------------------------------------------------------------------
  // Reference: what `re.search` does with the pattern `₹?(\d+)\s*(.*)`.
  // ---------------------------------------------------------------------

  /** The pattern can match starting at `p`: `₹?` takes the rupee sign when a
      digit follows it and otherwise matches empty, after which `\d+` needs a
      digit. `\s*` and `.*` never fail, so nothing else can reject a start. */
  ghost predicate MatchStartsAt(text: string, p: nat) {
    p < |text| &&
    (IsDigit(text[p]) || (text[p] == Rupee && p + 1 < |text| && IsDigit(text[p + 1])))
  }

  /** `re.search` tries the start positions from left to right and returns
      the first one where the pattern matches. */
  ghost predicate LeftmostMatch(text: string, p: nat) {
    MatchStartsAt(text, p) && forall q | 0 <= q < p :: !MatchStartsAt(text, q)
  }

  /** The group boundaries of the match at `p`, every quantifier greedy:
      group 1 is text[d..e], `\s*` spans text[e..w], group 2 is text[w..l]. */
  ghost predicate GreedyGroups(text: string, p: nat, d: nat, e: nat, w: nat, l: nat) {
    && p < |text|
    && d == (if text[p] == Rupee then p + 1 else p)
    && d < e <= w <= l <= |text|
    && (forall k | d <= k < e :: IsDigit(text[k])) && (e == |text| || !IsDigit(text[e]))
    && (forall k | e <= k < w :: IsSpace(text[k])) && (w == |text| || !IsSpace(text[w]))
    && (forall k | w <= k < l :: text[k] != '\n') && (l == |text| || text[l] == '\n')
  }

  /** A greedy scan is the only index with the properties SkipWhile promises. */
  lemma SkipWhileUnique(s: string, from: nat, cls: CharClass, i: nat)
    requires from <= i <= |s|
    requires forall k | from <= k < i :: InClass(s[k], cls)
    requires i == |s| || !InClass(s[i], cls)
    ensures SkipWhile(s, from, cls) == i
  {
  }

  /** A greedy backward scan is the only index with the properties
      SkipBackWhile promises. */
  lemma SkipBackWhileUnique(s: string, lo: nat, hi: nat, cls: CharClass, j: nat)
    requires lo <= j <= hi <= |s|
    requires forall k | j <= k < hi :: InClass(s[k], cls)
    requires j == lo || !InClass(s[j - 1], cls)
    ensures SkipBackWhile(s, lo, hi, cls) == j
  {
  }

  /** The search fails, and `parse_expense` returns `(None, None)`, exactly when
      the pattern matches nowhere, which is exactly when the text has no digit. */
  lemma {:induction false} NoMatchIffNotAnExpense(text: string)
    ensures ParseExpense(text).NotAnExpense? <==> forall p: nat :: !MatchStartsAt(text, p)
  {
    if !NoDigit(text) {
      var k :| 0 <= k < |text| && IsDigit(text[k]);
      assert MatchStartsAt(text, k);
    }
  }

  /** Whenever the text holds a digit, the search succeeds: there is a
      leftmost match and it has greedy group boundaries, so
      ParseIsLeftmostGreedyMatch speaks about every such text. */
  lemma MatchExistsWhenDigit(text: string)
    requires !NoDigit(text)
    ensures exists p: nat, d: nat, e: nat, w: nat, l: nat ::
              LeftmostMatch(text, p) && GreedyGroups(text, p, d, e, w, l)
  {
    var d := SkipWhile(text, 0, NonDigits);
    var p: nat := if d > 0 && text[d - 1] == Rupee then d - 1 else d;
    var e := SkipWhile(text, d, Digits);
    var w := SkipWhile(text, e, Blanks);
    var l := SkipWhile(text, w, LineChars);
    assert MatchStartsAt(text, p);
    forall q | 0 <= q < p ensures !MatchStartsAt(text, q) {
      assert !IsDigit(text[q]);
      if q + 1 < p { assert !IsDigit(text[q + 1]); }
    }
    assert GreedyGroups(text, p, d, e, w, l);
  }

  /** The optional rupee sign does not move the amount: wherever the leftmost
      match starts, its first group starts at the first digit of the text. */
  lemma LeftmostMatchStartsAtFirstDigit(text: string, p: nat)
    requires LeftmostMatch(text, p)
    ensures var d := if text[p] == Rupee then p + 1 else p;
            d < |text| && IsDigit(text[d]) && forall k | 0 <= k < d :: !IsDigit(text[k])
  {
    var d := if text[p] == Rupee then p + 1 else p;
    forall k | 0 <= k < d ensures !IsDigit(text[k]) {
      if k < p {
        assert !MatchStartsAt(text, k);
      }
    }
  }

  /** `parse_expense` returns group 1 of the leftmost match as the amount and
      group 2, stripped, capitalized and defaulted, as the note. */
  lemma ParseIsLeftmostGreedyMatch(text: string, p: nat, d: nat, e: nat, w: nat, l: nat)
    requires LeftmostMatch(text, p)
    requires GreedyGroups(text, p, d, e, w, l)
    ensures ParseExpense(text) == Expense(text[d..e], FinishNote(text[w..l]))
  {
    LeftmostMatchStartsAtFirstDigit(text, p);
    ParseFromBoundaries(text, d, e, w, l);
  }

  /** Read directly off the text: the amount is the maximal digit run
      text[i..e] that starts at the first digit, so nothing before it (a rupee
      sign, words, other characters) is part of it, whatever follows it. */
  lemma AmountIsFirstDigitRun(text: string, i: nat, e: nat)
    requires i < e <= |text|
    requires forall k | 0 <= k < i :: !IsDigit(text[k])
    requires forall k | i <= k < e :: IsDigit(text[k])
    requires e == |text| || !IsDigit(text[e])
    ensures ParseExpense(text).Expense? && ParseExpense(text).amount == text[i..e]
  {
    SkipWhileUnique(text, 0, NonDigits, i);
    SkipWhileUnique(text, i, Digits, e);
  }

  /** Read directly off the text: the amount is the digit run text[i..e] that
      starts at the first digit; after it, `\s*` skips text[e..w] (line breaks
      included) and the raw note text[w..l] runs to the end of that line. A
      blank raw note gives exactly "Misc". */
  lemma ParseFromBoundaries(text: string, i: nat, e: nat, w: nat, l: nat)
    requires i < e <= w <= l <= |text|
    requires forall k | 0 <= k < i :: !IsDigit(text[k])
    requires (forall k | i <= k < e :: IsDigit(text[k])) && (e == |text| || !IsDigit(text[e]))
    requires (forall k | e <= k < w :: IsSpace(text[k])) && (w == |text| || !IsSpace(text[w]))
    requires (forall k | w <= k < l :: text[k] != '\n') && (l == |text| || text[l] == '\n')
    ensures ParseExpense(text) == Expense(text[i..e], FinishNote(text[w..l]))
    ensures AllSpace(text[w..l]) ==> ParseExpense(text).note == DefaultNote
  {
    SkipWhileUnique(text, 0, NonDigits, i);
    SkipWhileUnique(text, i, Digits, e);
    SkipWhileUnique(text, e, Blanks, w);
    SkipWhileUnique(text, w, LineChars, l);
  }

  /** Stripping keeps exactly s[i..j] when everything outside it is blank and
      its first and last characters are not. */
  lemma StripBetween(s: string, i: nat, j: nat)
    requires i < j <= |s|
    requires forall k | 0 <= k < i :: IsSpace(s[k])
    requires forall k | j <= k < |s| :: IsSpace(s[k])
    requires !IsSpace(s[i]) && !IsSpace(s[j - 1])
    ensures Strip(s) == s[i..j]
  {
    SkipWhileUnique(s, 0, Blanks, i);
    SkipBackWhileUnique(s, i, |s|, Blanks, j);
  }

  /** StrippedFrom pins down `str.strip()` completely: any string with the
      strip property is the one Strip computes. */
  lemma StrippedFromIsStrip(s: string, r: string)
    requires StrippedFrom(s, r)
    ensures r == Strip(s)
  {
    var i, j :| 0 <= i <= j <= |s| && r == s[i..j]
                && (forall k | 0 <= k < i :: IsSpace(s[k]))
                && (forall k | j <= k < |s| :: IsSpace(s[k]))
                && (i < j ==> !IsSpace(s[i]) && !IsSpace(s[j - 1]));
    if i < j {
      StripBetween(s, i, j);
    } else {
      assert AllSpace(s);
    }
  }

  /** What `capitalize` leaves: the same letters up to case, no lower-case
      first letter and no upper-case letter after it ("KFC run" becomes
      "Kfc run"). */
  lemma CapitalizeShape(s: string)
    ensures var r := Capitalize(s);
            && |r| == |s|
            && (s != [] ==> !IsLower(r[0]) && ToUpper(r[0]) == ToUpper(s[0]))
            && (forall k | 1 <= k < |s| :: !IsUpper(r[k]) && ToLower(r[k]) == ToLower(s[k]))
  {
    var r := Capitalize(s);
    forall k | 1 <= k < |s| ensures !IsUpper(r[k]) && ToLower(r[k]) == ToLower(s[k]) {
      assert r[k] == ToLower(s[k]);
    }
  }

  /** A note line with no blank at either end is only capitalized. */
  lemma FinishNoteOfTrimmed(raw: string)
    requires raw != [] && !IsSpace(raw[0]) && !IsSpace(raw[|raw| - 1])
    ensures FinishNote(raw) == Capitalize(raw)
  {
    StripBetween(raw, 0, |raw|);
    assert raw[0..|raw|] == raw;
  }

  /** A message built as: text with no digit, the amount, blanks, a note line
      with no blank at either end (and no digit right after the amount), then
      nothing or a line break and anything, parses to that amount and that
      note line, capitalized. */
  lemma ParseOfParts(prefix: string, amount: string, gap: string, note: string, rest: string)
    requires NoDigit(prefix) && amount != [] && AllDigits(amount) && AllSpace(gap)
    requires note != [] && !IsSpace(note[0]) && !IsSpace(note[|note| - 1])
    requires OneLine(note)
    requires gap == [] ==> !IsDigit(note[0])
    requires rest == [] || rest[0] == '\n'
    ensures ParseExpense(prefix + amount + gap + note + rest) == Expense(amount, Capitalize(note))
  {
    var text := prefix + amount + gap + note + rest;
    var i := |prefix|;
    var e := i + |amount|;
    var w := e + |gap|;
    var l := w + |note|;
    assert text[i..e] == amount;
    assert text[w..l] == note;
    ParseFromBoundaries(text, i, e, w, l);
    FinishNoteOfTrimmed(note);
  }

  /** The usage hint's own example. Each example below splits its message
      into the parts `ParseOfParts` takes. */
  lemma ExampleRupeeCoffee()
    ensures ParseExpense([Rupee] + "250 Coffee") == Expense("250", "Coffee")
  {
    assert Capitalize("Coffee") == "Coffee";
    assert [Rupee] + "250 Coffee" == [Rupee] + "250" + " " + "Coffee" + "";
    ParseOfParts([Rupee], "250", " ", "Coffee", "");
  }

  lemma ExampleBareAmount()
    ensures ParseExpense("250") == Expense("250", DefaultNote)
  {
  }

  lemma ExampleNoDigits()
    ensures ParseExpense("no numbers here") == NotAnExpense
  {
    assert NoDigit("no numbers here");
  }

  /** The amount need not open the message. */
  lemma ExampleAmountInside()
    ensures ParseExpense("Room 250 deposit") == Expense("250", "Deposit")
  {
    assert Capitalize("deposit") == "Deposit";
    assert "Room 250 deposit" == "Room " + "250" + " " + "deposit" + "";
    ParseOfParts("Room ", "250", " ", "deposit", "");
  }

  /** `capitalize` lower-cases everything after the first character. */
  lemma ExampleLowersTheRest()
    ensures ParseExpense("99 KFC run") == Expense("99", "Kfc run")
  {
    assert Capitalize("KFC run") == "Kfc run";
    assert "99 KFC run" == "" + "99" + " " + "KFC run" + "";
    ParseOfParts("", "99", " ", "KFC run", "");
  }

  /** Only the integer digits are the amount; the rest joins the note. */
  lemma ExampleDecimalPoint()
    ensures ParseExpense("12.50 snacks") == Expense("12", ".50 snacks")
  {
    assert Capitalize(".50 snacks") == ".50 snacks";
    assert "12.50 snacks" == "" + "12" + "" + ".50 snacks" + "";
    ParseOfParts("", "12", "", ".50 snacks", "");
  }

  /** `\s*` crosses line breaks and `.*` stops at the next one. */
  lemma ExampleNextLine()
    ensures ParseExpense("30\n taxi\nx") == Expense("30", "Taxi")
  {
    assert Capitalize("taxi") == "Taxi";
    assert "30\n taxi\nx" == "" + "30" + "\n " + "taxi" + "\nx";
    ParseOfParts("", "30", "\n ", "taxi", "\nx");
  }
}
