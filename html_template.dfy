/**
 * `bundledTransform` and `dynamicTransform`: the copy plugin's transform of
 * `static/__index.html`, which puts the script tags for the chosen bundling
 * strategy where the template has the `__SCRIPT__` placeholder.
 */
module HtmlTemplate {
  import opened JsValues

  const Token: string := "__SCRIPT__"

  // The markups are written in short pieces only so that the verifier can
  // inspect them character by character; each is one template literal of the source.

  /** One deferred classic script: the single IIFE bundle. */
  const BundledMarkup: string :=
    "\n\t" + "<script defer src=\"/build/bundle.js\"" + " ></script>" + "\n\t"

  /** The CDN prefix and the entry-point attribute both loaders share. */
  const UnpkgSrc: string := " src=\"https://unpkg.com/"
  const DataMain: string := " data-main=\"/build/main.js\"></script>"

  /** The ES-module loader, for browsers with module support. */
  const ModuleScript: string :=
    "<script type=\"module\" defer" + UnpkgSrc + "dimport@1.0.0" + "/dist/index.mjs?module\"" + DataMain

  /** The fallback loader, for browsers without module support. */
  const FallbackScript: string :=
    "<script nomodule defer" + UnpkgSrc + "dimport/nomodule\"" + DataMain

  const DynamicMarkup: string := "\n\t" + ModuleScript + "\n\t" + FallbackScript + "\n\t"

  ghost predicate OccursAt(s: string, pat: string, i: int)
  {
    0 <= i && i + |pat| <= |s| && s[i..i + |pat|] == pat
  }

  ghost predicate NoOccurrence(s: string, pat: string)
  {
    forall i :: !OccursAt(s, pat, i)
  }

  ghost predicate FirstOccurrence(s: string, pat: string, i: int)
  {
    OccursAt(s, pat, i) && forall j :: 0 <= j < i ==> !OccursAt(s, pat, j)
  }

  /** `s.indexOf(pat, from)`, with None for -1. */
  function IndexOf(s: string, pat: string, from: nat): (r: Option<nat>)
    ensures r.None? ==> forall i :: from <= i ==> !OccursAt(s, pat, i)
    ensures r.Some? ==> from <= r.value && OccursAt(s, pat, r.value)
                        && forall j :: from <= j < r.value ==> !OccursAt(s, pat, j)
    decreases |s| - from
  {
    if from + |pat| > |s| then None
    else if s[from..from + |pat|] == pat then Some(from)
    else IndexOf(s, pat, from + 1)
  }

  /**
   * `s.replace(pat, rep)` with a string pattern: only the first occurrence is
   * replaced, and a string without one is returned as it is. (The markups
   * contain no `$`, so the replacement is inserted literally.)
   */
  function ReplaceFirst(s: string, pat: string, rep: string): (r: string)
    ensures NoOccurrence(s, pat) ==> r == s
    ensures forall i :: FirstOccurrence(s, pat, i) ==> r == s[..i] + rep + s[i + |pat|..]
  {
    match IndexOf(s, pat, 0)
    case None => s
    case Some(i) => s[..i] + rep + s[i + |pat|..]
  }

  function BundledTransform(contents: string): (r: string)
    ensures NoOccurrence(contents, Token) ==> r == contents
    ensures forall i :: FirstOccurrence(contents, Token, i) ==>
      r == contents[..i] + BundledMarkup + contents[i + |Token|..]
  {
    ReplaceFirst(contents, Token, BundledMarkup)
  }

  function DynamicTransform(contents: string): (r: string)
    ensures NoOccurrence(contents, Token) ==> r == contents
    ensures forall i :: FirstOccurrence(contents, Token, i) ==>
      r == contents[..i] + DynamicMarkup + contents[i + |Token|..]
  {
    ReplaceFirst(contents, Token, DynamicMarkup)
  }

  /** Every character of the placeholder is an upper-case letter or `_`, between 'A' and '_'. */
  predicate InTokenRange(c: char)
  {
    'A' <= c <= '_'
  }

  /** No character of `s` could belong to the placeholder. */
  ghost predicate AvoidsToken(s: string)
  {
    forall k :: 0 <= k < |s| ==> !InTokenRange(s[k])
  }

  lemma TokenInRange()
    ensures forall k :: 0 <= k < |Token| ==> InTokenRange(Token[k])
  {
  }

  lemma AvoidsTokenConcat(a: string, b: string)
    requires AvoidsToken(a) && AvoidsToken(b)
    ensures AvoidsToken(a + b)
  {
    forall k | 0 <= k < |a + b| ensures !InTokenRange((a + b)[k]) {
      if k >= |a| {
        assert (a + b)[k] == b[k - |a|];
      }
    }
  }

  /** A literal given in two short halves, each of which can be inspected character by character. */
  lemma AvoidsTokenHalves(a: string, b: string)
    requires forall k :: 0 <= k < |a| ==> !InTokenRange(a[k])
    requires forall k :: 0 <= k < |b| ==> !InTokenRange(b[k])
    ensures AvoidsToken(a + b)
  {
    AvoidsTokenConcat(a, b);
  }

  lemma UnpkgSrcAvoidsToken()
    ensures AvoidsToken(UnpkgSrc)
  {
    AvoidsTokenHalves(" src=\"https:", "//unpkg.com/");
  }

  lemma DataMainAvoidsToken()
    ensures AvoidsToken(DataMain)
  {
    AvoidsTokenHalves(" data-main=", "\"/build/");
    AvoidsTokenHalves("main.js\">", "</script>");
    AvoidsTokenConcat(" data-main=\"/build/", "main.js\"></script>");
  }

  lemma ModuleTagAvoidsToken()
    ensures AvoidsToken("<script type=\"module\" defer")
    ensures AvoidsToken("dimport@1.0.0")
    ensures AvoidsToken("/dist/index.mjs?module\"")
  {
    AvoidsTokenHalves("<script typ", "e=\"module\"");
    AvoidsTokenConcat("<script type=\"module\"", " defer");
    AvoidsTokenHalves("dimport@", "1.0.0");
    AvoidsTokenHalves("/dist/index", ".mjs?module\"");
  }

  lemma FallbackTagAvoidsToken()
    ensures AvoidsToken("<script nomodule defer")
    ensures AvoidsToken("dimport/nomodule\"")
  {
    AvoidsTokenHalves("<script nom", "odule defer");
    AvoidsTokenHalves("dimport/", "nomodule\"");
  }

  lemma ModuleScriptAvoidsToken()
    ensures AvoidsToken(ModuleScript)
  {
    ModuleTagAvoidsToken();
    UnpkgSrcAvoidsToken();
    DataMainAvoidsToken();
    var p1, p3, p4 := "<script type=\"module\" defer", "dimport@1.0.0", "/dist/index.mjs?module\"";
    AvoidsTokenConcat(p1, UnpkgSrc);
    AvoidsTokenConcat(p1 + UnpkgSrc, p3);
    AvoidsTokenConcat(p1 + UnpkgSrc + p3, p4);
    AvoidsTokenConcat(p1 + UnpkgSrc + p3 + p4, DataMain);
  }

  lemma FallbackScriptAvoidsToken()
    ensures AvoidsToken(FallbackScript)
  {
    FallbackTagAvoidsToken();
    UnpkgSrcAvoidsToken();
    DataMainAvoidsToken();
    var p1, p3 := "<script nomodule defer", "dimport/nomodule\"";
    AvoidsTokenConcat(p1, UnpkgSrc);
    AvoidsTokenConcat(p1 + UnpkgSrc, p3);
    AvoidsTokenConcat(p1 + UnpkgSrc + p3, DataMain);
  }

  /** Neither markup shares a character with the placeholder. */
  lemma MarkupsAvoidToken()
    ensures AvoidsToken(BundledMarkup) && AvoidsToken(DynamicMarkup)
  {
    var nl := "\n\t";
    assert AvoidsToken(nl);
    ModuleScriptAvoidsToken();
    FallbackScriptAvoidsToken();
    AvoidsTokenConcat(nl, ModuleScript);
    AvoidsTokenConcat(nl + ModuleScript, nl);
    AvoidsTokenConcat(nl + ModuleScript + nl, FallbackScript);
    AvoidsTokenConcat(nl + ModuleScript + nl + FallbackScript, nl);
  }

  /** With its first occurrence at `i`, replacing the first occurrence splices `rep` in at `i`. */
  lemma ReplaceFirstAt(s: string, pat: string, rep: string, i: nat)
    requires FirstOccurrence(s, pat, i)
    ensures ReplaceFirst(s, pat, rep) == s[..i] + rep + s[i + |pat|..]
  {
  }

  /** An occurrence of `pat` at `j`, past the one replaced at `i`, is shifted by `|rep| - |pat|`. */
  lemma SpliceKeepsLaterOccurrence(s: string, pat: string, rep: string, i: nat, j: nat)
    requires OccursAt(s, pat, j) && i + |pat| <= j
    ensures OccursAt(s[..i] + rep + s[i + |pat|..], pat, j - |pat| + |rep|)
  {
    var n := |pat|;
    var before, rest := s[..i], s[i + n..];
    var x := j - i - n;
    assert |before| == i;
    assert rest[x..x + n] == s[j..j + n];
    SliceOfSuffix(before, rep, rest, x, n);
  }

  /** An occurrence after the first one is left in place, shifted by the growth of the text. */
  lemma {:induction false} LaterOccurrenceSurvives(s: string, pat: string, rep: string, i: nat, j: nat)
    requires FirstOccurrence(s, pat, i) && OccursAt(s, pat, j) && i + |pat| <= j
    ensures OccursAt(ReplaceFirst(s, pat, rep), pat, j - |pat| + |rep|)
  {
    ReplaceFirstAt(s, pat, rep, i);
    SpliceKeepsLaterOccurrence(s, pat, rep, i, j);
  }

  lemma SliceOfSuffix(a: string, b: string, c: string, x: nat, m: nat)
    requires x + m <= |c|
    ensures (a + b + c)[|a| + |b| + x..|a| + |b| + x + m] == c[x..x + m]
  {
    var r, k := a + b + c, |a| + |b| + x;
    var u, v := r[k..k + m], c[x..x + m];
    forall t | 0 <= t < m ensures u[t] == v[t] {
      assert u[t] == r[k + t];
    }
  }

  /** No placeholder can overlap a markup that shares no character with it. */
  lemma NoStraddle(a: string, rep: string, b: string, p: int)
    requires AvoidsToken(rep) && |rep| > 0
    requires p < |a| + |rep| && |a| < p + |Token|
    ensures !OccursAt(a + rep + b, Token, p)
  {
    // the character at max(p, |a|) would lie both in the placeholder and in the markup
    var r := a + rep + b;
    var q := if p >= |a| then p else |a|;
    assert !InTokenRange(r[q]) by {
      assert r[q] == rep[q - |a|];
    }
    assert OccursAt(r, Token, p) ==> r[q] == Token[q - p];
    TokenInRange();
  }

  /** An occurrence wholly before or wholly after the inserted markup was already in the original. */
  lemma OccurrenceOutsideMarkup(s: string, rep: string, i: nat, p: int)
    requires i + |Token| <= |s|
    ensures p + |Token| <= i && OccursAt(s[..i] + rep + s[i + |Token|..], Token, p)
            ==> OccursAt(s, Token, p)
    ensures p >= i + |rep| && OccursAt(s[..i] + rep + s[i + |Token|..], Token, p)
            ==> OccursAt(s, Token, p - |rep| + |Token|)
  {
    var n := |Token|;
    var r := s[..i] + rep + s[i + n..];
    if 0 <= p && p + n <= i {
      assert r[p..p + n] == s[p..p + n];
    }
    if p >= i + |rep| && p + n <= |r| {
      var q := p - |rep| + n;
      assert r[p..p + n] == s[q..q + n];
    }
  }

  /**
   * When the placeholder occurs exactly once, replacing it with a markup that
   * shares no character with it leaves no placeholder behind.
   */
  lemma {:induction false} SoleOccurrenceConsumed(s: string, rep: string, i: nat)
    requires OccursAt(s, Token, i) && forall j :: OccursAt(s, Token, j) ==> j == i
    requires |rep| > 0 && AvoidsToken(rep)
    ensures NoOccurrence(ReplaceFirst(s, Token, rep), Token)
  {
    var n := |Token|;
    assert FirstOccurrence(s, Token, i);
    var r := s[..i] + rep + s[i + n..];
    assert ReplaceFirst(s, Token, rep) == r;
    forall p ensures !OccursAt(r, Token, p) {
      if p + n <= i || p >= i + |rep| {
        OccurrenceOutsideMarkup(s, rep, i, p);
      } else {
        NoStraddle(s[..i], rep, s[i + n..], p);
      }
    }
  }

  /** A template with exactly one placeholder comes out of either transform with none. */
  lemma TransformsConsumeSolePlaceholder(s: string, i: nat)
    requires OccursAt(s, Token, i) && forall j :: OccursAt(s, Token, j) ==> j == i
    ensures NoOccurrence(BundledTransform(s), Token)
    ensures NoOccurrence(DynamicTransform(s), Token)
  {
    MarkupsAvoidToken();
    SoleOccurrenceConsumed(s, BundledMarkup, i);
    SoleOccurrenceConsumed(s, DynamicMarkup, i);
  }
}
