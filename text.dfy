/**
 * Python's `str.lower()` and `str.strip()` restricted to ASCII, and the
 * column names both loaders recognise as an EDA channel.
 */
module Text {

  /** The ASCII characters `str.isspace()` accepts: tab to carriage return, 0x1C to 0x1F and space. */
  predicate IsSpace(c: char)
  {
    9 <= c as int <= 13 || 28 <= c as int <= 32
  }

  predicate IsUpper(c: char)
  {
    'A' <= c <= 'Z'
  }

  function LowerChar(c: char): (d: char)
    ensures !IsUpper(d)
    ensures !IsUpper(c) ==> d == c
    ensures IsSpace(d) <==> IsSpace(c)
  {
    if IsUpper(c) then (c as int + 32) as char else c
  }

  /** `s.lower()`: every upper-case letter replaced by its lower-case form. */
  function Lower(s: string): (r: string)
    ensures |r| == |s|
    ensures forall i :: 0 <= i < |s| ==> r[i] == LowerChar(s[i])
  {
    seq(|s|, i requires 0 <= i < |s| => LowerChar(s[i]))
  }

  /** `s.lstrip()`: the suffix left after the leading white space. */
  function TrimStart(s: string): (r: string)
    ensures |r| <= |s| && r == s[|s| - |r|..]
    ensures forall i :: 0 <= i < |s| - |r| ==> IsSpace(s[i])
    ensures r != [] ==> !IsSpace(r[0])
  {
    if s != [] && IsSpace(s[0]) then TrimStart(s[1..]) else s
  }

  /** `s.rstrip()`: the prefix left before the trailing white space. */
  function TrimEnd(s: string): (r: string)
    ensures |r| <= |s| && r == s[..|r|]
    ensures forall i :: |r| <= i < |s| ==> IsSpace(s[i])
    ensures r != [] ==> !IsSpace(r[|r| - 1])
  {
    if s != [] && IsSpace(s[|s| - 1]) then TrimEnd(s[..|s| - 1]) else s
  }

  /** `s.strip()`. */
  function Strip(s: string): string
  {
    TrimEnd(TrimStart(s))
  }

  /** Stripping twice removes nothing more. */
  lemma StripIdempotent(s: string)
    ensures Strip(Strip(s)) == Strip(s)
  {
    var t := Strip(s);
    assert t == [] || !IsSpace(t[0]) by {
      var u := TrimStart(s);
      assert t == u[..|t|];
    }
    assert TrimStart(t) == t;
    assert TrimEnd(t) == t;
  }

  /** The names, after lower-casing and stripping, that mark an EDA column. */
  const EdaNames: set<string> := {"eda", "gsr", "electrodermal"}

  /** `c.lower().strip() in {"eda", "gsr", "electrodermal"}`. */
  predicate IsEdaName(name: string)
  {
    Strip(Lower(name)) in EdaNames
  }

  /** For each name, whether it marks an EDA channel. */
  function EdaFlags(names: seq<string>): (flags: seq<bool>)
    ensures |flags| == |names|
    ensures forall i :: 0 <= i < |names| ==> flags[i] == IsEdaName(names[i])
  {
    seq(|names|, i requires 0 <= i < |names| => IsEdaName(names[i]))
  }

  /** The first index from `k` on whose flag is set, or `|flags|` when none is. */
  function FirstSet(flags: seq<bool>, k: nat): (r: nat)
    requires k <= |flags|
    ensures k <= r <= |flags|
    ensures r < |flags| ==> flags[r]
    ensures forall j :: k <= j < r ==> !flags[j]
    decreases |flags| - k
  {
    if k == |flags| then k
    else if flags[k] then k
    else FirstSet(flags, k + 1)
  }

  /** The first of `names` that marks an EDA channel, or `|names|` when none does: the search both loaders run. */
  function FirstEdaName(names: seq<string>): (r: nat)
    ensures r <= |names|
    ensures r < |names| ==> IsEdaName(names[r])
    ensures forall j :: 0 <= j < r ==> !IsEdaName(names[j])
  {
    var flags := EdaFlags(names);
    var r := FirstSet(flags, 0);
    assert forall j :: 0 <= j < r ==> !flags[j];
    r
  }

  /** Every character of `w` is white space. */
  predicate AllSpace(w: string)
  {
    forall i :: 0 <= i < |w| ==> IsSpace(w[i])
  }

  /** Lower-casing twice changes nothing more. */
  lemma LowerIdempotent(s: string)
    ensures Lower(Lower(s)) == Lower(s)
  {
  }

  /** Lower-casing works character by character, so it distributes over concatenation. */
  lemma LowerAppend(a: string, b: string)
    ensures Lower(a + b) == Lower(a) + Lower(b)
  {
    assert forall i :: 0 <= i < |a + b| ==> Lower(a + b)[i] == (Lower(a) + Lower(b))[i];
  }

  /** White space has no upper-case letter, so lower-casing leaves it alone. */
  lemma LowerSpace(w: string)
    requires AllSpace(w)
    ensures Lower(w) == w
  {
  }

  /** `lstrip` removes a white-space prefix and then carries on as before. */
  lemma {:induction false} TrimStartSpace(w: string, x: string)
    requires AllSpace(w)
    ensures TrimStart(w + x) == TrimStart(x)
    decreases |w|
  {
    if w != [] {
      assert (w + x)[0] == w[0];
      assert (w + x)[1..] == w[1..] + x;
      TrimStartSpace(w[1..], x);
    } else {
      assert w + x == x;
    }
  }

  /** `rstrip` removes a white-space suffix and then carries on as before. */
  lemma {:induction false} TrimEndSpace(x: string, w: string)
    requires AllSpace(w)
    ensures TrimEnd(x + w) == TrimEnd(x)
    decreases |w|
  {
    if w != [] {
      var v := w[..|w| - 1];
      assert (x + w)[|x + w| - 1] == w[|w| - 1];
      assert (x + w)[..|x + w| - 1] == x + v;
      TrimEndSpace(x, v);
    } else {
      assert x + w == x;
    }
  }

  /** A string made only of white space strips to nothing from the left. */
  lemma TrimStartAllSpace(w: string)
    requires AllSpace(w)
    ensures TrimStart(w) == []
  {
  }

  /** White space appended to a string disappears when the string is stripped. */
  lemma {:induction false} StripTrailingSpace(x: string, w: string)
    requires AllSpace(w)
    ensures Strip(x + w) == Strip(x)
    decreases |x|
  {
    if x == [] {
      assert x + w == w;
      TrimStartAllSpace(w);
    } else if IsSpace(x[0]) {
      assert (x + w)[0] == x[0];
      assert (x + w)[1..] == x[1..] + w;
      StripTrailingSpace(x[1..], w);
    } else {
      assert (x + w)[0] == x[0];
      TrimEndSpace(x, w);
    }
  }

  lemma AppendAssociative(a: string, b: string, c: string)
    ensures a + b + c == a + (b + c)
  {
  }

  /** White space prepended to a string disappears when the string is stripped. */
  lemma StripLeadingSpace(w: string, x: string)
    requires AllSpace(w)
    ensures Strip(w + x) == Strip(x)
  {
    TrimStartSpace(w, x);
  }

  /** Surrounding white space changes nothing about what `strip` returns. */
  lemma StripSurroundingSpace(w1: string, x: string, w2: string)
    requires AllSpace(w1) && AllSpace(w2)
    ensures Strip(w1 + x + w2) == Strip(x)
  {
    AppendAssociative(w1, x, w2);
    StripLeadingSpace(w1, x + w2);
    StripTrailingSpace(x, w2);
  }

  /** Matching ignores case: a lower-cased name matches exactly when the name does. */
  lemma EdaNameIgnoresCase(name: string)
    ensures IsEdaName(Lower(name)) == IsEdaName(name)
  {
    LowerIdempotent(name);
  }

  /** Matching ignores white space around the name. */
  lemma EdaNameIgnoresSurroundingSpace(w1: string, name: string, w2: string)
    requires AllSpace(w1) && AllSpace(w2)
    ensures IsEdaName(w1 + name + w2) == IsEdaName(name)
  {
    LowerAppend(w1 + name, w2);
    LowerAppend(w1, name);
    LowerSpace(w1);
    LowerSpace(w2);
    StripSurroundingSpace(w1, Lower(name), w2);
  }

  /** A longer name that merely starts with a channel name does not match. */
  lemma EdaNameIsWholeName()
    ensures !IsEdaName("eda1")
  {
    assert Lower("eda1") == "eda1";
    assert TrimStart("eda1") == "eda1";
    assert TrimEnd("eda1") == "eda1";
  }
}
