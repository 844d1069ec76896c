/**
 * `sanitizeFilename` (src/utils/helpers.js): three string rewrites in a row.
 *   1. every character outside ASCII letters, digits and '.' becomes '-'
 *      (the regular expression is case-insensitive, so upper-case letters stay);
 *   2. every run of '-' becomes a single '-';
 *   3. the result is lower-cased.
 * Characters are Unicode scalar values; the pattern matches only ASCII letters,
 * so every other character is rewritten in stage 1.
 */
module Sanitize {

  /** The characters the pattern `[^a-z0-9.]` with flag `i` leaves alone. */
  predicate Allowed(c: char) {
    ('a' <= c <= 'z') || ('A' <= c <= 'Z') || ('0' <= c <= '9') || c == '.'
  }

  /** The characters a sanitized name may contain. */
  predicate OutputChar(c: char) {
    ('a' <= c <= 'z') || ('0' <= c <= '9') || c == '.' || c == '-'
  }

  function LowerChar(c: char): (d: char)
    ensures Allowed(c) ==> Allowed(d) && OutputChar(d)
    ensures !Allowed(c) ==> d == c
    ensures ('a' <= c <= 'z') ==> d == c
  {
    if 'A' <= c <= 'Z' then (c as int + 32) as char else c
  }

  /** Stage 1: `.replace(/[^a-z0-9.]/gi, '-')`. */
  function ReplaceDisallowed(s: string): string {
    if |s| == 0 then ""
    else [if Allowed(s[0]) then s[0] else '-'] + ReplaceDisallowed(s[1..])
  }

  /** Stage 2: `.replace(/-+/g, '-')`: a dash followed by a dash is dropped. */
  function CollapseDashes(s: string): string {
    if |s| == 0 then ""
    else if |s| >= 2 && s[0] == '-' && s[1] == '-' then CollapseDashes(s[1..])
    else [s[0]] + CollapseDashes(s[1..])
  }

  /** Stage 3: `.toLowerCase()`, which after stage 1 only meets ASCII. */
  function ToLower(s: string): string {
    if |s| == 0 then "" else [LowerChar(s[0])] + ToLower(s[1..])
  }

  /** The helper itself, with the output properties the callers rely on. */
  function SanitizeFilename(s: string): (r: string)
    ensures forall c :: c in r ==> OutputChar(c)
    ensures NoDoubleDash(r)
    ensures |r| <= |s|
  {
    var replaced := ReplaceDisallowed(s);
    var collapsed := CollapseDashes(replaced);
    ReplaceShape(s);
    CollapseShape(replaced);
    CollapseNoDoubleDash(replaced);
    LowerShape(collapsed);
    ToLower(collapsed)
  }

  predicate NoDoubleDash(s: string) {
    forall i :: 0 <= i < |s| - 1 ==> !(s[i] == '-' && s[i + 1] == '-')
  }

  /** The letters, digits and dots of a string, in order. */
  function KeptChars(s: string): string {
    if |s| == 0 then ""
    else if Allowed(s[0]) then [s[0]] + KeptChars(s[1..])
    else KeptChars(s[1..])
  }

  /**
   * A reference definition in one left-to-right pass: an allowed character is
   * emitted lower-cased; a maximal run of other characters (dashes included)
   * emits one '-'. `inRun` says the previous character was not allowed.
   */
  function SinglePass(s: string, inRun: bool): string {
    if |s| == 0 then ""
    else if Allowed(s[0]) then [LowerChar(s[0])] + SinglePass(s[1..], false)
    else if inRun then SinglePass(s[1..], true)
    else "-" + SinglePass(s[1..], true)
  }

  // ---------------------------------------------------------------------
  // Stage 1

  lemma {:induction false} ReplaceShape(s: string)
    ensures |ReplaceDisallowed(s)| == |s|
    ensures forall c :: c in ReplaceDisallowed(s) ==> Allowed(c) || c == '-'
    ensures KeptChars(ReplaceDisallowed(s)) == KeptChars(s)
  {
    if |s| > 0 {
      ReplaceShape(s[1..]);
      var r := ReplaceDisallowed(s);
      assert r[1..] == ReplaceDisallowed(s[1..]);
    }
  }

  lemma {:induction false} ReplaceIdentity(s: string)
    requires forall c :: c in s ==> Allowed(c) || c == '-'
    ensures ReplaceDisallowed(s) == s
  {
    if |s| > 0 {
      assert s[0] in s;
      assert forall c :: c in s[1..] ==> c in s;
      ReplaceIdentity(s[1..]);
    }
  }

  // ---------------------------------------------------------------------
  // Stage 2

  lemma {:induction false} CollapseHead(s: string)
    requires |s| > 0
    ensures |CollapseDashes(s)| > 0 && CollapseDashes(s)[0] == s[0]
  {
    if |s| >= 2 && s[0] == '-' && s[1] == '-' {
      CollapseHead(s[1..]);
    }
  }

  lemma {:induction false} CollapseShape(s: string)
    ensures |CollapseDashes(s)| <= |s|
    ensures forall c :: c in CollapseDashes(s) ==> c in s
    ensures KeptChars(CollapseDashes(s)) == KeptChars(s)
  {
    if |s| > 0 {
      CollapseShape(s[1..]);
      assert forall c :: c in s[1..] ==> c in s;
    }
  }

  lemma {:induction false} CollapseNoDoubleDash(s: string)
    ensures NoDoubleDash(CollapseDashes(s))
  {
    if |s| > 0 {
      CollapseNoDoubleDash(s[1..]);
      if !(|s| >= 2 && s[0] == '-' && s[1] == '-') {
        var r := CollapseDashes(s);
        var t := CollapseDashes(s[1..]);
        assert r == [s[0]] + t;
        if |s| >= 2 {
          CollapseHead(s[1..]);
        }
        forall i | 0 <= i < |r| - 1
          ensures !(r[i] == '-' && r[i + 1] == '-')
        {
          if i > 0 {
            assert r[i] == t[i - 1] && r[i + 1] == t[i];
          }
        }
      }
    }
  }

  lemma {:induction false} CollapseIdentity(s: string)
    requires NoDoubleDash(s)
    ensures CollapseDashes(s) == s
  {
    if |s| > 0 {
      assert NoDoubleDash(s[1..]) by {
        forall i | 0 <= i < |s[1..]| - 1
          ensures !(s[1..][i] == '-' && s[1..][i + 1] == '-')
        {
          assert s[1..][i] == s[i + 1] && s[1..][i + 1] == s[i + 2];
        }
      }
      CollapseIdentity(s[1..]);
    }
  }

  // ---------------------------------------------------------------------
  // Stage 3

  lemma {:induction false} LowerShape(s: string)
    ensures |ToLower(s)| == |s|
    ensures forall i :: 0 <= i < |s| ==> ToLower(s)[i] == LowerChar(s[i])
    ensures (forall c :: c in s ==> Allowed(c) || c == '-') ==> forall c :: c in ToLower(s) ==> OutputChar(c)
    ensures NoDoubleDash(s) ==> NoDoubleDash(ToLower(s))
    ensures KeptChars(ToLower(s)) == ToLower(KeptChars(s))
  {
    if |s| > 0 {
      LowerShape(s[1..]);
      var r := ToLower(s);
      assert r[1..] == ToLower(s[1..]);
      forall i | 0 <= i < |s|
        ensures r[i] == LowerChar(s[i])
      {
        if i > 0 { assert r[i] == r[1..][i - 1]; }
      }
      if forall c :: c in s ==> Allowed(c) || c == '-' {
        forall c | c in r
          ensures OutputChar(c)
        {
          var i :| 0 <= i < |r| && r[i] == c;
          assert s[i] in s;
        }
      }
    }
  }

  lemma {:induction false} LowerIdentity(s: string)
    requires forall c :: c in s ==> OutputChar(c)
    ensures ToLower(s) == s
  {
    if |s| > 0 {
      assert s[0] in s;
      assert forall c :: c in s[1..] ==> c in s;
      LowerIdentity(s[1..]);
    }
  }

  // ---------------------------------------------------------------------
  // Properties of the helper

  /** The letters, digits and dots of the input survive, in order, lower-cased. */
  lemma KeepsAllowedInOrder(s: string)
    ensures KeptChars(SanitizeFilename(s)) == ToLower(KeptChars(s))
  {
    var replaced := ReplaceDisallowed(s);
    ReplaceShape(s);
    CollapseShape(replaced);
    LowerShape(CollapseDashes(replaced));
  }

  /** Sanitizing a sanitized name changes nothing. */
  lemma Idempotent(s: string)
    ensures SanitizeFilename(SanitizeFilename(s)) == SanitizeFilename(s)
  {
    var t := SanitizeFilename(s);
    assert forall c :: c in t ==> Allowed(c) || c == '-';
    ReplaceIdentity(t);
    CollapseIdentity(t);
    LowerIdentity(t);
  }

  /** A disallowed first character makes the pipeline's output start with '-'. */
  lemma {:induction false} LeadingDash(s: string)
    requires |s| > 0 && !Allowed(s[0])
    ensures |SanitizeFilename(s)| > 0 && SanitizeFilename(s)[0] == '-'
  {
    var replaced := ReplaceDisallowed(s);
    assert replaced[0] == '-';
    CollapseHead(replaced);
    LowerShape(CollapseDashes(replaced));
  }

  /**
   * The pipeline equals the one-pass reference: each maximal run of
   * characters other than letters, digits and dots becomes exactly one '-'.
   */
  lemma {:induction false} PipelineIsSinglePass(s: string)
    ensures SanitizeFilename(s) == SinglePass(s, false)
    ensures |s| > 0 && !Allowed(s[0]) ==> SinglePass(s, true) == SanitizeFilename(s)[1..]
    ensures (|s| == 0 || Allowed(s[0])) ==> SinglePass(s, true) == SanitizeFilename(s)
  {
    if |s| > 0 {
      var tail := s[1..];
      PipelineIsSinglePass(tail);
      var rs := ReplaceDisallowed(s);
      var rt := ReplaceDisallowed(tail);
      assert rs == [if Allowed(s[0]) then s[0] else '-'] + rt;
      assert rs[1..] == rt;
      if Allowed(s[0]) {
        assert CollapseDashes(rs) == [s[0]] + CollapseDashes(rt);
        assert SanitizeFilename(s) == [LowerChar(s[0])] + SanitizeFilename(tail);
      } else if |tail| > 0 && !Allowed(tail[0]) {
        assert rt[0] == '-';
        assert CollapseDashes(rs) == CollapseDashes(rt);
        assert SanitizeFilename(s) == SanitizeFilename(tail);
        LeadingDash(tail);
        assert SanitizeFilename(tail) == "-" + SanitizeFilename(tail)[1..];
      } else {
        assert CollapseDashes(rs) == ['-'] + CollapseDashes(rt);
        assert SanitizeFilename(s) == "-" + SanitizeFilename(tail);
      }
    }
  }
}
