/** Substring search on names, as used by the `search` query parameter. */
module Text {

  /** Case folding of a single character: ASCII upper-case letters become lower-case. */
  function LowerChar(c: char): char {
    if 'A' <= c <= 'Z' then (c as int + 32) as char else c
  }

  function Lower(s: string): string {
    seq(|s|, i requires 0 <= i < |s| => LowerChar(s[i]))
  }

  /** `t` occurs in `s` starting at position `i`. */
  ghost predicate OccursAt(s: string, t: string, i: int) {
    0 <= i && i + |t| <= |s| && s[i..i + |t|] == t
  }

  /** Dropping the first character of `s` shifts every later occurrence by one. */
  lemma {:induction false} ShiftOccurrence(s: string, t: string)
    requires |s| > 0 && !OccursAt(s, t, 0)
    ensures (exists j :: OccursAt(s[1..], t, j)) <==> (exists i :: OccursAt(s, t, i))
  {
    if j :| OccursAt(s[1..], t, j) {
      assert s[1..][j..j + |t|] == s[j + 1..j + 1 + |t|];
      assert OccursAt(s, t, j + 1);
    }
    if i :| OccursAt(s, t, i) {
      assert i != 0;
      assert s[1..][i - 1..i - 1 + |t|] == s[i..i + |t|];
      assert OccursAt(s[1..], t, i - 1);
    }
  }

  /** Whether `t` is a substring of `s`. */
  function Contains(s: string, t: string): (r: bool)
    ensures r <==> exists i :: OccursAt(s, t, i)
    decreases |s|
  {
    if |t| > |s| then false
    else if s[..|t|] == t then assert OccursAt(s, t, 0); true
    else ShiftOccurrence(s, t); Contains(s[1..], t)
  }

  /** Django's `icontains` lookup: substring test after case folding both sides. */
  function ContainsIgnoringCase(s: string, t: string): (r: bool)
    ensures r <==> exists i :: OccursAt(Lower(s), Lower(t), i)
  {
    Contains(Lower(s), Lower(t))
  }

  /** The search is blind to case: "milk" finds "Whole MILK". */
  lemma SearchIgnoresCase()
    ensures ContainsIgnoringCase("Whole MILK", "milk")
    ensures !Contains("Whole MILK", "milk")
  {
    var s := Lower("Whole MILK");
    assert s[6..10] == "milk";
    assert OccursAt(s, Lower("milk"), 6);
    assert !Contains("Whole MILK", "milk") by {
      if i :| OccursAt("Whole MILK", "milk", i) {
        var w := "Whole MILK"[i..i + 4];
        assert w[3] == "Whole MILK"[i + 3];
        assert "milk"[3] == 'k';
      }
    }
  }
}
