/**
 * The SoQL query sanitiser and the two request-URL builders of
 * src/socrata/mod.rs.  Everything here is a total, pure string function.
 */
module Query {

  import opened Wrappers

  /** Rust's `char::is_whitespace`, which is also the class `\s` of the
      `regex` crate in its default Unicode mode: the Unicode White_Space
      property. */
  predicate IsWhitespace(c: char) {
    || ('\t' <= c <= '\r')
    || c == ' '
    || c == '\U{85}'
    || c == '\U{A0}'
    || c == '\U{1680}'
    || ('\U{2000}' <= c <= '\U{200A}')
    || c == '\U{2028}'
    || c == '\U{2029}'
    || c == '\U{202F}'
    || c == '\U{205F}'
    || c == '\U{3000}'
  }

  /** `s.replace("\n", " ")` */
  function ReplaceNewlines(s: string): string {
    if s == [] then [] else [if s[0] == '\n' then ' ' else s[0]] + ReplaceNewlines(s[1..])
  }

  /** `s.replace("\t", "")` */
  function DeleteTabs(s: string): string {
    if s == [] then [] else (if s[0] == '\t' then "" else [s[0]]) + DeleteTabs(s[1..])
  }

  /** `str::trim_start` */
  function TrimStart(s: string): (r: string)
    ensures |r| <= |s|
  {
    if s != [] && IsWhitespace(s[0]) then TrimStart(s[1..]) else s
  }

  /** `str::trim_end` */
  function TrimEnd(s: string): (r: string)
    ensures |r| <= |s|
  {
    if s != [] && IsWhitespace(s[|s| - 1]) then TrimEnd(s[..|s| - 1]) else s
  }

  /** `str::trim` */
  function Trim(s: string): string {
    TrimEnd(TrimStart(s))
  }

  /** `Regex::new(r"[\s]+").replace_all(s, " ")`.  The regex matches
      leftmost-first and greedily, so every maximal run of whitespace is
      replaced by one space. */
  function Collapse(s: string): string
    decreases |s|
  {
    if s == [] then []
    else if IsWhitespace(s[0]) then " " + Collapse(TrimStart(s))
    else [s[0]] + Collapse(s[1..])
  }

  /** `sanitize` (src/socrata/mod.rs:15-22): newlines become spaces, tabs are
      deleted, the ends are trimmed and whitespace runs collapse to a space. */
  function Sanitize(q: string): string {
    Collapse(Trim(DeleteTabs(ReplaceNewlines(q))))
  }

  /** `make_query`: the CSV resource URL.  The query is pasted in without
      any percent-encoding. */
  function MakeQuery(domain: string, dataset: string, query: string): string {
    "https://" + domain + "/resource/" + dataset + ".csv?$query=" + Sanitize(query)
  }

  /** `make_analyze_url`: the query-analysis URL, again without encoding. */
  function MakeAnalyzeUrl(domain: string, dataset: string, query: string): string {
    "https://" + domain + "/api/views/" + dataset + "/query_info?analyze=true&query=" + Sanitize(query)
  }

  // ---------------------------------------------------------------------
  // Specification vocabulary

  /** The non-whitespace characters of `s`, in order. */
  function RemoveWhitespace(s: string): string {
    if s == [] then [] else (if IsWhitespace(s[0]) then "" else [s[0]]) + RemoveWhitespace(s[1..])
  }

  /** No whitespace at either end. */
  predicate Trimmed(s: string) {
    s == [] || (!IsWhitespace(s[0]) && !IsWhitespace(s[|s| - 1]))
  }

  /** Every whitespace character is a plain space and no two are adjacent. */
  predicate SingleSpaced(s: string) {
    && (forall i :: 0 <= i < |s| && IsWhitespace(s[i]) ==> s[i] == ' ')
    && (forall i :: 0 <= i < |s| - 1 && IsWhitespace(s[i]) ==> !IsWhitespace(s[i + 1]))
  }

  predicate Normalized(s: string) {
    Trimmed(s) && SingleSpaced(s)
  }

  predicate NoWhitespace(s: string) {
    forall i :: 0 <= i < |s| ==> !IsWhitespace(s[i])
  }

  // ---------------------------------------------------------------------
  // Lemmas about the individual steps

  lemma {:induction false} RemoveWhitespaceAppend(a: string, b: string)
    ensures RemoveWhitespace(a + b) == RemoveWhitespace(a) + RemoveWhitespace(b)
  {
    if a == [] {
      assert a + b == b;
    } else {
      assert (a + b)[0] == a[0];
      assert (a + b)[1..] == a[1..] + b;
      RemoveWhitespaceAppend(a[1..], b);
      var h := if IsWhitespace(a[0]) then "" else [a[0]];
      calc {
        RemoveWhitespace(a + b);
        h + RemoveWhitespace(a[1..] + b);
        h + (RemoveWhitespace(a[1..]) + RemoveWhitespace(b));
        (h + RemoveWhitespace(a[1..])) + RemoveWhitespace(b);
      }
    }
  }

  /** `trim_start` drops exactly the leading whitespace run: what is left
      is a suffix that does not start with whitespace, and everything
      dropped was whitespace. */
  lemma {:induction false} TrimStartShape(s: string)
    ensures var r := TrimStart(s);
            && r == s[|s| - |r|..]
            && (forall i :: 0 <= i < |s| - |r| ==> IsWhitespace(s[i]))
            && (r == [] || !IsWhitespace(r[0]))
  {
    if s != [] && IsWhitespace(s[0]) {
      TrimStartShape(s[1..]);
    }
  }

  /** `trim_end` drops exactly the trailing whitespace run. */
  lemma {:induction false} TrimEndShape(s: string)
    ensures var r := TrimEnd(s);
            && r == s[..|r|]
            && (forall i :: |r| <= i < |s| ==> IsWhitespace(s[i]))
            && (r == [] || !IsWhitespace(r[|r| - 1]))
  {
    if s != [] && IsWhitespace(s[|s| - 1]) {
      TrimEndShape(s[..|s| - 1]);
    }
  }

  lemma {:induction false} ReplaceNewlinesKeepsText(s: string)
    ensures RemoveWhitespace(ReplaceNewlines(s)) == RemoveWhitespace(s)
  {
    if s != [] {
      var head := if s[0] == '\n' then " " else [s[0]];
      RemoveWhitespaceAppend(head, ReplaceNewlines(s[1..]));
      ReplaceNewlinesKeepsText(s[1..]);
    }
  }

  lemma {:induction false} ReplaceNewlinesFixes(s: string)
    requires forall i :: 0 <= i < |s| ==> s[i] != '\n'
    ensures ReplaceNewlines(s) == s
  {
    if s != [] {
      ReplaceNewlinesFixes(s[1..]);
      assert s == [s[0]] + s[1..];
    }
  }

  lemma {:induction false} ReplaceNewlinesAppend(a: string, b: string)
    ensures ReplaceNewlines(a + b) == ReplaceNewlines(a) + ReplaceNewlines(b)
  {
    if a == [] {
      assert a + b == b;
    } else {
      assert (a + b)[0] == a[0];
      assert (a + b)[1..] == a[1..] + b;
      ReplaceNewlinesAppend(a[1..], b);
      var h := if a[0] == '\n' then " " else [a[0]];
      calc {
        ReplaceNewlines(a + b);
        h + ReplaceNewlines(a[1..] + b);
        h + (ReplaceNewlines(a[1..]) + ReplaceNewlines(b));
        (h + ReplaceNewlines(a[1..])) + ReplaceNewlines(b);
      }
    }
  }

  lemma {:induction false} DeleteTabsKeepsText(s: string)
    ensures RemoveWhitespace(DeleteTabs(s)) == RemoveWhitespace(s)
  {
    if s != [] {
      var head := if s[0] == '\t' then "" else [s[0]];
      RemoveWhitespaceAppend(head, DeleteTabs(s[1..]));
      DeleteTabsKeepsText(s[1..]);
    }
  }

  lemma {:induction false} TrimStartKeepsText(s: string)
    ensures RemoveWhitespace(TrimStart(s)) == RemoveWhitespace(s)
  {
    if s != [] && IsWhitespace(s[0]) {
      TrimStartKeepsText(s[1..]);
    }
  }

  lemma {:induction false} TrimEndKeepsText(s: string)
    ensures RemoveWhitespace(TrimEnd(s)) == RemoveWhitespace(s)
  {
    if s != [] && IsWhitespace(s[|s| - 1]) {
      var init := s[..|s| - 1];
      assert s == init + [s[|s| - 1]];
      RemoveWhitespaceAppend(init, [s[|s| - 1]]);
      TrimEndKeepsText(init);
    }
  }

  /** `replace_all` leaves only single spaces. */
  lemma {:induction false} CollapseSingleSpaced(s: string)
    ensures SingleSpaced(Collapse(s))
    ensures (Collapse(s) == []) == (s == [])
    ensures s != [] ==> (IsWhitespace(Collapse(s)[0]) == IsWhitespace(s[0]))
    decreases |s|
  {
    if s == [] {
    } else if IsWhitespace(s[0]) {
      var t := TrimStart(s);
      TrimStartShape(s);
      CollapseSingleSpaced(t);
      assert Collapse(s) == " " + Collapse(t);
    } else {
      CollapseSingleSpaced(s[1..]);
      assert Collapse(s) == [s[0]] + Collapse(s[1..]);
    }
  }

  /** `replace_all` ends in whitespace exactly when its input does. */
  lemma {:induction false} CollapseLast(s: string)
    requires s != []
    ensures Collapse(s) != []
    ensures IsWhitespace(Collapse(s)[|Collapse(s)| - 1]) == IsWhitespace(s[|s| - 1])
    decreases |s|
  {
    var r := Collapse(s);
    if IsWhitespace(s[0]) {
      var t := TrimStart(s);
      assert r == " " + Collapse(t);
      TrimStartShape(s);
      if t != [] {
        CollapseLast(t);
        assert t[|t| - 1] == s[|s| - 1];
        assert r[|r| - 1] == Collapse(t)[|Collapse(t)| - 1];
      } else {
        assert IsWhitespace(s[|s| - 1]);
        assert r == " ";
      }
    } else if |s| == 1 {
      assert r == [s[0]] + Collapse(s[1..]);
      assert s[1..] == [];
    } else {
      var c := Collapse(s[1..]);
      assert r == [s[0]] + c;
      CollapseLast(s[1..]);
      assert r[|r| - 1] == c[|c| - 1];
    }
  }

  /** `replace_all` keeps the non-whitespace text. */
  lemma {:induction false} CollapseKeepsText(s: string)
    ensures RemoveWhitespace(Collapse(s)) == RemoveWhitespace(s)
    decreases |s|
  {
    if s == [] {
    } else if IsWhitespace(s[0]) {
      var t := TrimStart(s);
      CollapseKeepsText(t);
      TrimStartKeepsText(s);
      var r := Collapse(s);
      assert r == " " + Collapse(t);
      assert r[1..] == Collapse(t);
    } else {
      CollapseKeepsText(s[1..]);
      var r := Collapse(s);
      assert r == [s[0]] + Collapse(s[1..]);
      assert r[1..] == Collapse(s[1..]);
    }
  }

  /** A string already in normal form is left alone by every step. */
  lemma {:induction false} CollapseFixesSingleSpaced(s: string)
    requires SingleSpaced(s)
    ensures Collapse(s) == s
    decreases |s|
  {
    if s != [] {
      assert SingleSpaced(s[1..]);
      CollapseFixesSingleSpaced(s[1..]);
      if IsWhitespace(s[0]) {
        assert TrimStart(s) == TrimStart(s[1..]);
        assert TrimStart(s[1..]) == s[1..];
      }
      assert s == [s[0]] + s[1..];
    }
  }

  /** Trimming the start of `x + y`, where `x` ends in a non-whitespace
      character, only trims `x`. */
  lemma {:induction false} TrimStartAppend(x: string, y: string)
    requires x != [] && !IsWhitespace(x[|x| - 1])
    ensures TrimStart(x + y) == TrimStart(x) + y
    decreases |x|
  {
    if IsWhitespace(x[0]) {
      assert (x + y)[1..] == x[1..] + y;
      TrimStartAppend(x[1..], y);
    }
  }

  /** A whitespace run in front of a word is trimmed away entirely. */
  lemma {:induction false} TrimStartRun(w: string, b: string)
    requires forall i :: 0 <= i < |w| ==> IsWhitespace(w[i])
    requires b == [] || !IsWhitespace(b[0])
    ensures TrimStart(w + b) == b
    decreases |w|
  {
    if w == [] {
      assert w + b == b;
    } else {
      assert (w + b)[1..] == w[1..] + b;
      TrimStartRun(w[1..], b);
    }
  }

  /** One step of `CollapseJoin` when `a` starts with whitespace: the
      leading run of `a` is collapsed on its own. */
  lemma CollapseJoinRunStep(a: string, w: string, b: string)
    requires a != [] && IsWhitespace(a[0]) && !IsWhitespace(a[|a| - 1])
    requires Collapse(TrimStart(a) + w + b) == Collapse(TrimStart(a)) + " " + Collapse(b)
    ensures Collapse(a + w + b) == Collapse(a) + " " + Collapse(b)
  {
    var t := TrimStart(a);
    var s := a + w + b;
    var u := t + w + b;
    TrimStartAppend(a, w + b);
    assert s == a + (w + b);
    assert u == t + (w + b);
    assert TrimStart(s) == u;
    assert s[0] == a[0];
    assert Collapse(s) == " " + Collapse(u);
    assert Collapse(a) == " " + Collapse(t);
  }

  /** One step of `CollapseJoin` when `a` starts with a word character. */
  lemma CollapseJoinWordStep(a: string, w: string, b: string)
    requires a != [] && !IsWhitespace(a[0])
    requires Collapse(a[1..] + w + b) == Collapse(a[1..]) + " " + Collapse(b)
    ensures Collapse(a + w + b) == Collapse(a) + " " + Collapse(b)
  {
    assert (a + w + b)[1..] == a[1..] + w + b;
    assert Collapse(a + w + b) == [a[0]] + Collapse(a[1..] + w + b);
  }

  /** `replace_all` turns a whitespace run between two non-whitespace
      characters into exactly one space, and works on each side of it
      independently. */
  lemma {:induction false} CollapseJoin(a: string, w: string, b: string)
    requires a == [] || !IsWhitespace(a[|a| - 1])
    requires w != [] && forall i :: 0 <= i < |w| ==> IsWhitespace(w[i])
    requires b == [] || !IsWhitespace(b[0])
    ensures Collapse(a + w + b) == Collapse(a) + " " + Collapse(b)
    decreases |a|
  {
    if a == [] {
      assert a + w + b == w + b;
      TrimStartRun(w, b);
      assert Collapse(w + b) == " " + Collapse(TrimStart(w + b));
    } else if IsWhitespace(a[0]) {
      var t := TrimStart(a);
      TrimStartShape(a);
      assert t == a[|a| - |t|..];
      assert t != [] && t[|t| - 1] == a[|a| - 1];
      CollapseJoin(t, w, b);
      CollapseJoinRunStep(a, w, b);
    } else {
      CollapseJoin(a[1..], w, b);
      CollapseJoinWordStep(a, w, b);
    }
  }

  lemma {:induction false} DeleteTabsFixes(s: string)
    requires forall i :: 0 <= i < |s| ==> s[i] != '\t'
    ensures DeleteTabs(s) == s
  {
    if s != [] {
      DeleteTabsFixes(s[1..]);
      assert s == [s[0]] + s[1..];
    }
  }

  lemma {:induction false} DeleteTabsAppend(a: string, b: string)
    ensures DeleteTabs(a + b) == DeleteTabs(a) + DeleteTabs(b)
  {
    if a == [] {
      assert a + b == b;
    } else {
      assert (a + b)[0] == a[0];
      assert (a + b)[1..] == a[1..] + b;
      DeleteTabsAppend(a[1..], b);
      var h := if a[0] == '\t' then "" else [a[0]];
      calc {
        DeleteTabs(a + b);
        h + DeleteTabs(a[1..] + b);
        h + (DeleteTabs(a[1..]) + DeleteTabs(b));
        (h + DeleteTabs(a[1..])) + DeleteTabs(b);
      }
    }
  }

  lemma NormalizedIsFixed(s: string)
    requires Normalized(s)
    ensures ReplaceNewlines(s) == s
    ensures DeleteTabs(s) == s
    ensures Trim(s) == s
    ensures Collapse(s) == s
  {
    assert forall i :: 0 <= i < |s| ==> s[i] != '\t' && s[i] != '\n' by {
      forall i | 0 <= i < |s| ensures s[i] != '\t' && s[i] != '\n' {
        if IsWhitespace(s[i]) { assert s[i] == ' '; }
      }
    }
    ReplaceNewlinesFixes(s);
    DeleteTabsFixes(s);
    CollapseFixesSingleSpaced(s);
    assert TrimStart(s) == s;
    assert TrimEnd(s) == s;
  }

  // ---------------------------------------------------------------------
  // Properties of `sanitize`

  /** The output of `sanitize` has no newline and no tab, no whitespace at
      either end, and its only whitespace is single spaces. */
  lemma SanitizeNormalized(q: string)
    ensures Normalized(Sanitize(q))
    ensures forall i :: 0 <= i < |Sanitize(q)| ==> Sanitize(q)[i] != '\n' && Sanitize(q)[i] != '\t'
  {
    var x := DeleteTabs(ReplaceNewlines(q));
    TrimStartShape(x);
    TrimEndShape(TrimStart(x));
    var t := Trim(x);
    var r := Collapse(t);
    CollapseSingleSpaced(t);
    if t != [] { CollapseLast(t); }
    assert t == [] || !IsWhitespace(t[0]);
    assert Trimmed(r);
    forall i | 0 <= i < |r| ensures r[i] != '\n' && r[i] != '\t' {
      if IsWhitespace(r[i]) { assert r[i] == ' '; }
    }
  }

  /** `sanitize` only touches whitespace: the other characters survive,
      all of them and in their original order. */
  lemma SanitizeKeepsText(q: string)
    ensures RemoveWhitespace(Sanitize(q)) == RemoveWhitespace(q)
  {
    var a := ReplaceNewlines(q);
    var b := DeleteTabs(a);
    var c := TrimStart(b);
    ReplaceNewlinesKeepsText(q);
    DeleteTabsKeepsText(a);
    TrimStartKeepsText(b);
    TrimEndKeepsText(c);
    CollapseKeepsText(TrimEnd(c));
  }

  /** `sanitize` is idempotent. */
  lemma SanitizeIdempotent(q: string)
    ensures Sanitize(Sanitize(q)) == Sanitize(q)
  {
    SanitizeNormalized(q);
    NormalizedIsFixed(Sanitize(q));
  }

  /** A tab between two words is deleted, not turned into a space. */
  lemma SanitizeDeletesTab(a: string, b: string)
    requires NoWhitespace(a) && NoWhitespace(b)
    ensures Sanitize(a + "\t" + b) == a + b
  {
    var s := a + "\t" + b;
    assert ReplaceNewlines(s) == s by {
      forall i | 0 <= i < |s| ensures s[i] != '\n' {
        if i < |a| { assert s[i] == a[i]; }
        else if i > |a| { assert s[i] == b[i - |a| - 1]; }
      }
      ReplaceNewlinesFixes(s);
    }
    assert DeleteTabs(s) == a + b by {
      DeleteTabsAppend(a + "\t", b);
      DeleteTabsAppend(a, "\t");
      DeleteTabsFixes(a);
      DeleteTabsFixes(b);
      assert DeleteTabs("\t") == "";
    }
    assert NoWhitespace(a + b) by {
      forall i | 0 <= i < |a + b| ensures !IsWhitespace((a + b)[i]) {
        if i < |a| { assert (a + b)[i] == a[i]; }
        else { assert (a + b)[i] == b[i - |a|]; }
      }
    }
    NormalizedIsFixed(a + b);
  }

  /** A newline between two words becomes a single space. */
  lemma SanitizeNewlineToSpace(a: string, b: string)
    requires NoWhitespace(a) && NoWhitespace(b) && a != [] && b != []
    ensures Sanitize(a + "\n" + b) == a + " " + b
  {
    var s := a + "\n" + b;
    var t := a + " " + b;
    assert ReplaceNewlines(s) == t by {
      ReplaceNewlinesAppend(a + "\n", b);
      ReplaceNewlinesAppend(a, "\n");
      ReplaceNewlinesFixes(a);
      ReplaceNewlinesFixes(b);
      assert ReplaceNewlines("\n") == " ";
    }
    assert Normalized(t);
    NormalizedIsFixed(t);
  }

  /** The newline and tab steps map a whitespace run to a whitespace run,
      which is empty exactly when the run was all tabs. */
  lemma {:induction false} CleanRun(w: string)
    requires forall i :: 0 <= i < |w| ==> IsWhitespace(w[i])
    ensures var v := DeleteTabs(ReplaceNewlines(w));
            && (forall i :: 0 <= i < |v| ==> IsWhitespace(v[i]))
            && (v == [] <==> forall i :: 0 <= i < |w| ==> w[i] == '\t')
    decreases |w|
  {
    if w != [] {
      CleanRun(w[1..]);
      var c := if w[0] == '\n' then ' ' else w[0];
      var rest := ReplaceNewlines(w[1..]);
      assert ReplaceNewlines(w) == [c] + rest;
      DeleteTabsAppend([c], rest);
      assert DeleteTabs([c]) == (if c == '\t' then "" else [c]) + DeleteTabs([]);
      var v := DeleteTabs(ReplaceNewlines(w));
      assert v == DeleteTabs([c]) + DeleteTabs(rest);
      if forall i :: 0 <= i < |w| ==> w[i] == '\t' {
        assert w[0] == '\t';
        assert forall i :: 0 <= i < |w[1..]| ==> w[1..][i] == '\t' by {
          forall i | 0 <= i < |w[1..]| ensures w[1..][i] == '\t' { assert w[1..][i] == w[i + 1]; }
        }
      } else if w[0] == '\t' {
        var j :| 0 <= j < |w| && w[j] != '\t';
        assert w[1..][j - 1] == w[j];
      }
    }
  }

  /** Any whitespace run between two words that is not made only of tabs
      becomes a single space. */
  lemma SanitizeJoin(a: string, w: string, b: string)
    requires NoWhitespace(a) && NoWhitespace(b) && a != [] && b != []
    requires forall i :: 0 <= i < |w| ==> IsWhitespace(w[i])
    requires exists i :: 0 <= i < |w| && w[i] != '\t'
    ensures Sanitize(a + w + b) == a + " " + b
  {
    var v := DeleteTabs(ReplaceNewlines(w));
    CleanRun(w);
    assert ReplaceNewlines(a + w + b) == a + ReplaceNewlines(w) + b by {
      ReplaceNewlinesAppend(a + w, b);
      ReplaceNewlinesAppend(a, w);
      ReplaceNewlinesFixes(a);
      ReplaceNewlinesFixes(b);
    }
    var x := DeleteTabs(a + ReplaceNewlines(w) + b);
    assert x == a + v + b by {
      DeleteTabsAppend(a + ReplaceNewlines(w), b);
      DeleteTabsAppend(a, ReplaceNewlines(w));
      DeleteTabsFixes(a);
      DeleteTabsFixes(b);
    }
    assert TrimStart(x) == x;
    assert TrimEnd(x) == x;
    CollapseJoin(a, v, b);
    CollapseFixesSingleSpaced(a);
    CollapseFixesSingleSpaced(b);
  }

  // ---------------------------------------------------------------------
  // Properties of the URL builders

  /** The part of a `make_query` URL after the fixed prefix for `domain`
      and `dataset`, if `url` has that prefix. */
  function QueryPart(domain: string, dataset: string, url: string): (r: Option<string>)
    ensures r.Some? ==> url == "https://" + domain + "/resource/" + dataset + ".csv?$query=" + r.value
  {
    var prefix := "https://" + domain + "/resource/" + dataset + ".csv?$query=";
    if |prefix| <= |url| && url[..|prefix|] == prefix then Some(url[|prefix|..]) else None
  }

  /** The query text can be read back out of a `make_query` URL: exactly
      the sanitised query, pasted in without escaping. */
  lemma MakeQueryRoundTrip(domain: string, dataset: string, query: string)
    ensures QueryPart(domain, dataset, MakeQuery(domain, dataset, query)) == Some(Sanitize(query))
  {
  }

  /** Two queries give the same URL exactly when they sanitise alike. */
  lemma MakeQueryDeterminedBySanitize(domain: string, dataset: string, q1: string, q2: string)
    ensures MakeQuery(domain, dataset, q1) == MakeQuery(domain, dataset, q2) <==> Sanitize(q1) == Sanitize(q2)
  {
    if MakeQuery(domain, dataset, q1) == MakeQuery(domain, dataset, q2) {
      MakeQueryRoundTrip(domain, dataset, q1);
      MakeQueryRoundTrip(domain, dataset, q2);
    }
  }

  /** Pre-sanitising the query does not change the URL. */
  lemma MakeQueryOfSanitized(domain: string, dataset: string, query: string)
    ensures MakeQuery(domain, dataset, Sanitize(query)) == MakeQuery(domain, dataset, query)
    ensures MakeAnalyzeUrl(domain, dataset, Sanitize(query)) == MakeAnalyzeUrl(domain, dataset, query)
  {
    SanitizeIdempotent(query);
  }

  /** The analysis URL ends in the sanitised query, whose non-whitespace
      text is that of the query as typed. */
  lemma MakeAnalyzeUrlShape(domain: string, dataset: string, query: string)
    ensures var url := MakeAnalyzeUrl(domain, dataset, query);
            var prefix := "https://" + domain + "/api/views/" + dataset + "/query_info?analyze=true&query=";
            && url[..|prefix|] == prefix
            && Normalized(url[|prefix|..])
            && RemoveWhitespace(url[|prefix|..]) == RemoveWhitespace(query)
  {
    var prefix := "https://" + domain + "/api/views/" + dataset + "/query_info?analyze=true&query=";
    assert MakeAnalyzeUrl(domain, dataset, query)[|prefix|..] == Sanitize(query);
    SanitizeNormalized(query);
    SanitizeKeepsText(query);
  }
}
