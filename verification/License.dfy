/** License policy: SPDX expressions (SPDX Specification 2.3, Annex D) against a feed's
    allow and deny lists. */
module License {
  import opened Ascii
  import opened Options

  // ---- Words ----

  predicate IsWord(w: string) { w != "" && forall i :: 0 <= i < |w| ==> !IsSpace(w[i]) }

  predicate AreWords(ws: seq<string>) { forall w :: w in ws ==> IsWord(w) }

  function FirstWord(s: string): (w: string)
    ensures w <= s && (forall i :: 0 <= i < |w| ==> !IsSpace(w[i])) && (|w| < |s| ==> IsSpace(s[|w|]))
  {
    if s == "" || IsSpace(s[0]) then "" else [s[0]] + FirstWord(s[1..])
  }

  /** What whitespace separates. */
  function Words(s: string): (ws: seq<string>)
    ensures AreWords(ws)
    decreases |s|
  {
    if s == "" then []
    else if IsSpace(s[0]) then Words(s[1..])
    else [FirstWord(s)] + Words(s[|FirstWord(s)|..])
  }

  function Join(ws: seq<string>): string {
    if ws == [] then "" else if |ws| == 1 then ws[0] else ws[0] + " " + Join(ws[1..])
  }

  lemma {:induction false} FirstWordIs(w: string, rest: string)
    requires IsWord(w) && (rest == "" || IsSpace(rest[0]))
    ensures FirstWord(w + rest) == w
  {
    if |w| > 1 {
      FirstWordIs(w[1..], rest);
      assert (w + rest)[1..] == w[1..] + rest;
    } else {
      assert (w + rest)[1..] == rest;
    }
  }

  lemma {:induction false} WordsOfJoined(ws: seq<string>)
    requires AreWords(ws)
    ensures Words(Join(ws)) == ws
  {
    if |ws| == 1 {
      FirstWordIs(ws[0], "");
      assert ws[0] + "" == ws[0];
    } else if |ws| > 1 {
      var rest := " " + Join(ws[1..]);
      FirstWordIs(ws[0], rest);
      assert Join(ws) == ws[0] + rest;
      WordsOfJoined(ws[1..]);
      assert rest[1..] == Join(ws[1..]);
    }
  }

  lemma {:induction false} JoinedEnds(ws: seq<string>)
    requires AreWords(ws) && ws != []
    ensures Join(ws) != "" && !IsSpace(Join(ws)[0]) && !IsSpace(Join(ws)[|Join(ws)| - 1])
  {
    assert IsWord(ws[0]);
    if |ws| > 1 {
      JoinedEnds(ws[1..]);
    }
  }

  lemma JoinedIsTrimmed(ws: seq<string>)
    requires AreWords(ws)
    ensures Trim(Join(ws)) == Join(ws) && (Join(ws) == "" <==> ws == [])
  {
    if ws != [] {
      JoinedEnds(ws);
    }
  }

  // ---- Splitting on an operator ----

  /** The words between the operators, possibly none. */
  function Groups(ws: seq<string>, op: string): (gs: seq<seq<string>>)
    ensures gs != []
  {
    if ws == [] then [[]]
    else
      var gs := Groups(ws[..|ws| - 1], op);
      if SameIgnoringCase(ws[|ws| - 1], op) then gs + [[]]
      else gs[..|gs| - 1] + [gs[|gs| - 1] + [ws[|ws| - 1]]]
  }

  /** The groups as text, empty ones dropped. */
  function Parts(gs: seq<seq<string>>): seq<string> {
    if gs == [] then []
    else
      var part := Trim(Join(gs[|gs| - 1]));
      Parts(gs[..|gs| - 1]) + (if part == "" then [] else [part])
  }

  function Split(s: string, op: string): seq<string> { Parts(Groups(Words(s), op)) }

  method SplitOperator(s: string, op: string) returns (parts: seq<string>)
    ensures parts == Split(s, op)
  {
    var words := Words(s);
    var groups: seq<seq<string>> := [];
    var current: seq<string> := [];
    for i := 0 to |words|
      invariant groups + [current] == Groups(words[..i], op)
    {
      assert words[..i + 1][..i] == words[..i];
      assert (groups + [current])[..|groups|] == groups;
      if SameIgnoringCase(words[i], op) {
        groups, current := groups + [current], [];
      } else {
        current := current + [words[i]];
      }
    }
    groups := groups + [current];
    assert words[..|words|] == words;
    parts := [];
    for i := 0 to |groups|
      invariant parts == Parts(groups[..i])
    {
      assert groups[..i + 1][..i] == groups[..i];
      var part := Trim(Join(groups[i]));
      if part != "" {
        parts := parts + [part];
      }
    }
    assert groups[..|groups|] == groups;
  }

  // ---- Terms ----

  /** Deprecated ids with their replacement and the exception they imply, and the
      exception ids that are known. */
  datatype Tables = Tables(deprecated: seq<(string, string, Option<string>)>, exceptions: seq<string>)

  predicate HasSuffix(s: string, suffix: string) { |suffix| <= |s| && s[|s| - |suffix|..] == suffix }

  function Family(id: string): string {
    if HasSuffix(id, "-only") then id[..|id| - 5] else if HasSuffix(id, "-or-later") then id[..|id| - 9] else id
  }

  function Deprecated(table: seq<(string, string, Option<string>)>, id: string): Option<(string, Option<string>)> {
    if table == [] then None
    else if SameIgnoringCase(table[0].0, id) then Some((table[0].1, table[0].2))
    else Deprecated(table[1..], id)
  }

  /** The id lower-cased, `+` as `-or-later`, a deprecated id as its replacement. */
  function NormalizeId(t: Tables, raw: string): (string, Option<string>) {
    var id := Trim(raw);
    var later := HasSuffix(id, "+");
    var base := if later then TrimEnd(id[..|id| - 1]) else id;
    var (name, exception) :=
      match Deprecated(t.deprecated, base)
      case Some((replacement, e)) => (Lower(replacement), e)
      case None => (Lower(base), None);
    (if later then Family(name) + "-or-later" else name, exception)
  }

  predicate SameFamily(t: Tables, a: string, b: string) { Family(NormalizeId(t, a).0) == Family(NormalizeId(t, b).0) }

  datatype Term = Term(id: string, exception: Option<string>, malformed: bool) {
    predicate ExceptionIsKnown(t: Tables) {
      !malformed && (exception.Some? ==> exists k :: k in t.exceptions && SameIgnoringCase(k, exception.value))
    }

    /** Whether this allow rule admits `term`. */
    predicate Allows(t: Tables, term: Term) {
      id != "" && term.ExceptionIsKnown(t) &&
      (id == term.id || (HasSuffix(id, "-only") && HasSuffix(term.id, "-or-later") && Family(id) == Family(term.id))) &&
      (exception.Some? ==> term.exception == exception)
    }
  }

  function ParseTerm(t: Tables, raw: string): Term {
    var parts := Split(raw, "WITH");
    var malformed := |parts| > 2 || parts == [] || (|parts| < 2 && exists w :: w in Words(raw) && SameIgnoringCase(w, "WITH"));
    var (id, implied) := NormalizeId(t, if parts == [] then "" else parts[0]);
    var exception := if |parts| > 1 then Some(Lower(parts[1])) else if implied.Some? then Some(Lower(implied.value)) else None;
    Term(id, exception, malformed)
  }

  lemma OneEnding(id: string)
    ensures !(HasSuffix(id, "-only") && HasSuffix(id, "-or-later"))
  {
    if HasSuffix(id, "-only") {
      assert id[|id| - 1] == id[|id| - 5..][4];
    }
    if HasSuffix(id, "-or-later") {
      assert id[|id| - 1] == id[|id| - 9..][8];
    }
  }

  /** Rules are ordered by what they admit: a rule admits itself as a term, and all that
      a term it admits would admit as a rule, and two rules admit each other only when
      they are one licence with one exception. */
  lemma AllowRulesAreOrdered(t: Tables, r: Term, x: Term, y: Term)
    ensures r.id != "" && r.ExceptionIsKnown(t) ==> r.Allows(t, r)
    ensures r.Allows(t, x) && x.Allows(t, y) ==> r.Allows(t, y)
    ensures r.Allows(t, x) && x.Allows(t, r) ==> r.id == x.id && r.exception == x.exception
  {
    OneEnding(r.id);
    OneEnding(x.id);
    OneEnding(y.id);
  }

  lemma WordsAreTrimmed(w: string)
    requires IsWord(w)
    ensures Trim(w) == w && TrimEnd(w) == w
  {
    JoinedIsTrimmed([w]);
    assert !IsSpace(w[|w| - 1]);
  }

  lemma Joined(a: string, b: string)
    requires IsWord(a) && IsWord(b)
    ensures IsWord(a + b) && Lower(a + b) == Lower(a) + Lower(b)
  {
  }

  lemma FamilyOfForm(base: string, form: string)
    requires form == "-only" || form == "-or-later"
    ensures Family(base + form) == base
  {
    OneEnding(base + form);
    assert (base + form)[..|base|] == base && (base + form)[|base|..] == form;
  }

  /** A word that is neither deprecated nor ends in `+` is only lower-cased. */
  lemma PlainForm(t: Tables, w: string)
    requires IsWord(w) && !HasSuffix(w, "+") && Deprecated(t.deprecated, w).None?
    ensures NormalizeId(t, w) == (Lower(w), None)
  {
    WordsAreTrimmed(w);
  }

  lemma NoPlus(id: string, form: string)
    requires form != "" && form[|form| - 1] != '+'
    ensures !HasSuffix(id + form, "+")
  {
    var w := id + form;
    assert w[|w| - 1..][0] == w[|w| - 1] == form[|form| - 1];
  }

  lemma FormsAreWords()
    ensures IsWord("-only") && Lower("-only") == "-only" && IsWord("-or-later") && Lower("-or-later") == "-or-later"
  {
  }

  lemma VersionForm(t: Tables, id: string, form: string)
    requires IsWord(id) && (form == "-only" || form == "-or-later") && Deprecated(t.deprecated, id + form).None?
    ensures NormalizeId(t, id + form) == (Lower(id) + form, None)
  {
    FormsAreWords();
    Joined(id, form);
    NoPlus(id, form);
    PlainForm(t, id + form);
  }

  /** `+` turns whatever the id stands for, deprecated or not, into its `-or-later` form. */
  lemma PlusForm(t: Tables, id: string)
    requires IsWord(id) && !HasSuffix(id, "+")
    ensures NormalizeId(t, id + "+") == (Family(NormalizeId(t, id).0) + "-or-later", NormalizeId(t, id).1)
  {
    Joined(id, "+");
    WordsAreTrimmed(id + "+");
    WordsAreTrimmed(id);
    assert (id + "+")[|id|..] == "+" && (id + "+")[..|id|] == id;
  }

  /** The plain and `+` forms of an id are one family, whether the plain form is a
      deprecated spelling or not. An explicit form, itself no deprecated id, is of that
      family exactly when the id names the family of the licence it stands for. */
  lemma VersionFormsAreOneFamily(t: Tables, id: string, form: string)
    requires IsWord(id) && !HasSuffix(id, "+")
    requires form == "" || form == "+" || form == "-only" || form == "-or-later"
    requires form == "-only" || form == "-or-later" ==> Deprecated(t.deprecated, id + form).None?
    ensures form == "" || form == "+" ==> SameFamily(t, id + form, id)
    ensures form == "-only" || form == "-or-later" ==>
      (SameFamily(t, id + form, id) <==> Family(NormalizeId(t, id).0) == Lower(id))
    ensures form == "+" ==> NormalizeId(t, id + form) == (Family(NormalizeId(t, id).0) + "-or-later", NormalizeId(t, id).1)
  {
    if form == "" {
      assert id + form == id;
    } else if form == "+" {
      PlusForm(t, id);
      FamilyOfForm(Family(NormalizeId(t, id).0), "-or-later");
    } else {
      VersionForm(t, id, form);
      FamilyOfForm(Lower(id), form);
    }
  }

  // ---- The allow list ----

  predicate ExactRule(allowed: seq<string>, license: string) {
    exists a :: a in allowed && SameIgnoringCase(Trim(a), Trim(license))
  }

  predicate SomeRuleAllows(t: Tables, allowed: seq<string>, term: Term) {
    exists a :: a in allowed && ParseTerm(t, a).Allows(t, term)
  }

  predicate AlternativeIsAllowed(t: Tables, allowed: seq<string>, alternative: string) {
    var conjuncts := Split(alternative, "AND");
    conjuncts != [] && forall c :: c in conjuncts ==> SomeRuleAllows(t, allowed, ParseTerm(t, c))
  }

  predicate ExpressionIsAllowed(t: Tables, allowed: seq<string>, license: string) {
    ExactRule(allowed, license) ||
    ('(' !in license && ')' !in license &&
     exists alternative :: alternative in Split(license, "OR") && AlternativeIsAllowed(t, allowed, alternative))
  }

  // ---- Expression trees ----

  /** A disjunction of conjunctions of terms, each term its words. */
  type Conjunct = seq<string>
  type Alternative = seq<Conjunct>
  type Tree = seq<Alternative>

  predicate ValidConjunct(c: Conjunct) {
    c != [] && AreWords(c) && forall w :: w in c ==> !SameIgnoringCase(w, "OR") && !SameIgnoringCase(w, "AND")
  }

  predicate ValidAlternative(a: Alternative) { a != [] && forall c :: c in a ==> ValidConjunct(c) }

  predicate ValidTree(tree: Tree) { tree != [] && forall a :: a in tree ==> ValidAlternative(a) }

  /** The words of the parts with an operator between any two. */
  function Interleave(parts: seq<seq<string>>, op: string): seq<string> {
    if parts == [] then []
    else if |parts| == 1 then parts[0]
    else Interleave(parts[..|parts| - 1], op) + [op] + parts[|parts| - 1]
  }

  function PrintAlternative(a: Alternative, and: string): seq<string> { Interleave(a, and) }

  function PrintTree(tree: Tree, or: string, and: string): seq<string> {
    Interleave(seq(|tree|, i requires 0 <= i < |tree| => PrintAlternative(tree[i], and)), or)
  }

  /** What the tree says: some alternative with every term allowed. */
  predicate TreeIsAllowed(t: Tables, allowed: seq<string>, tree: Tree) {
    exists a :: a in tree && TermsAllowed(t, allowed, a)
  }

  predicate TermsAllowed(t: Tables, allowed: seq<string>, a: Alternative) {
    forall c :: c in a ==> SomeRuleAllows(t, allowed, ParseTerm(t, Join(c)))
  }

  predicate FreeOf(ws: seq<string>, op: string) { forall w :: w in ws ==> !SameIgnoringCase(w, op) }

  /** The last group with more words. */
  function Extended(gs: seq<seq<string>>, ys: seq<string>): seq<seq<string>>
    requires gs != []
  {
    gs[..|gs| - 1] + [gs[|gs| - 1] + ys]
  }

  lemma ExtendedTwice(gs: seq<seq<string>>, ys: seq<string>, w: string)
    requires gs != []
    ensures Extended(Extended(gs, ys), [w]) == Extended(gs, ys + [w])
  {
    assert gs[|gs| - 1] + ys + [w] == gs[|gs| - 1] + (ys + [w]);
  }

  lemma OneWordMore(zs: seq<string>, w: string, op: string)
    requires !SameIgnoringCase(w, op)
    ensures Groups(zs + [w], op) == Extended(Groups(zs, op), [w])
  {
    assert (zs + [w])[..|zs|] == zs;
  }

  lemma OneMoreWord(xs: seq<string>, ys: seq<string>, w: string, op: string, gs: seq<seq<string>>)
    requires gs != [] && Groups(xs + ys, op) == Extended(gs, ys) && !SameIgnoringCase(w, op)
    ensures Groups(xs + (ys + [w]), op) == Extended(gs, ys + [w])
  {
    OneWordMore(xs + ys, w, op);
    ExtendedTwice(gs, ys, w);
    assert xs + (ys + [w]) == xs + ys + [w];
  }

  lemma NoWordsMore(xs: seq<string>, op: string)
    ensures Groups(xs + [], op) == Extended(Groups(xs, op), [])
  {
    var gs := Groups(xs, op);
    assert xs + [] == xs && gs[|gs| - 1] + [] == gs[|gs| - 1];
    assert gs == gs[..|gs| - 1] + [gs[|gs| - 1]];
  }

  lemma {:induction false} GroupExtended(xs: seq<string>, ys: seq<string>, op: string)
    requires FreeOf(ys, op)
    ensures Groups(xs + ys, op) == Extended(Groups(xs, op), ys)
    decreases |ys|
  {
    if ys == [] {
      NoWordsMore(xs, op);
    } else {
      var init, last := ys[..|ys| - 1], ys[|ys| - 1];
      assert ys == init + [last] && last in ys;
      GroupExtended(xs, init, op);
      OneMoreWord(xs, init, last, op, Groups(xs, op));
    }
  }

  lemma OneGroupMore(xs: seq<string>, gs: seq<seq<string>>, last: seq<string>, op: string, sep: string)
    requires Groups(xs, op) == gs && SameIgnoringCase(sep, op) && FreeOf(last, op)
    ensures Groups(xs + [sep] + last, op) == gs + [last]
  {
    assert (xs + [sep])[..|xs|] == xs;
    GroupExtended(xs + [sep], last, op);
    assert [] + last == last && (gs + [[]])[..|gs|] == gs;
  }

  /** Splitting what was put together gives the parts back. */
  lemma {:induction false} GroupsOfInterleaved(parts: seq<seq<string>>, op: string, sep: string)
    requires parts != [] && SameIgnoringCase(sep, op)
    requires forall p :: p in parts ==> FreeOf(p, op)
    ensures Groups(Interleave(parts, sep), op) == parts
  {
    if |parts| == 1 {
      GroupExtended([], parts[0], op);
      assert [] + parts[0] == parts[0];
    } else {
      var init, last := parts[..|parts| - 1], parts[|parts| - 1];
      GroupsOfInterleaved(init, op, sep);
      OneGroupMore(Interleave(init, sep), init, last, op, sep);
      assert parts == init + [last];
    }
  }

  lemma {:induction false} PartsAreJoined(gs: seq<seq<string>>)
    requires forall g :: g in gs ==> AreWords(g) && g != []
    ensures |Parts(gs)| == |gs| && forall i :: 0 <= i < |gs| ==> Parts(gs)[i] == Join(gs[i])
  {
    if gs != [] {
      PartsAreJoined(gs[..|gs| - 1]);
      JoinedIsTrimmed(gs[|gs| - 1]);
    }
  }

  predicate JoinedFrom(parts: seq<string>, gs: seq<seq<string>>) {
    |parts| == |gs| && forall i :: 0 <= i < |gs| ==> parts[i] == Join(gs[i])
  }

  lemma {:induction false} InterleavedWords(parts: seq<seq<string>>, sep: string)
    requires (forall p :: p in parts ==> AreWords(p) && p != []) && IsWord(sep)
    ensures AreWords(Interleave(parts, sep)) && (parts != [] ==> Interleave(parts, sep) != [])
  {
    if |parts| > 1 {
      assert parts[|parts| - 1] in parts;
      InterleavedWords(parts[..|parts| - 1], sep);
    }
  }

  lemma {:induction false} InterleavedFree(parts: seq<seq<string>>, sep: string, op: string)
    requires (forall p :: p in parts ==> FreeOf(p, op)) && !SameIgnoringCase(sep, op)
    ensures FreeOf(Interleave(parts, sep), op)
  {
    if |parts| > 1 {
      assert parts[|parts| - 1] in parts;
      InterleavedFree(parts[..|parts| - 1], sep, op);
    }
  }

  /** The operators of a printed expression, in any case. */
  predicate Operators(or: string, and: string) {
    IsWord(or) && SameIgnoringCase(or, "OR") && IsWord(and) && SameIgnoringCase(and, "AND")
  }

  lemma AlternativeSplits(a: Alternative, and: string)
    requires ValidAlternative(a) && IsWord(and) && SameIgnoringCase(and, "AND")
    ensures JoinedFrom(Split(Join(PrintAlternative(a, and)), "AND"), a)
  {
    InterleavedWords(a, and);
    WordsOfJoined(PrintAlternative(a, and));
    GroupsOfInterleaved(a, "AND", and);
    PartsAreJoined(a);
  }

  function Alternatives(tree: Tree, and: string): seq<seq<string>> {
    seq(|tree|, i requires 0 <= i < |tree| => PrintAlternative(tree[i], and))
  }

  lemma TreeSplits(license: string, tree: Tree, or: string, and: string)
    requires ValidTree(tree) && Operators(or, and) && Words(license) == PrintTree(tree, or, and)
    ensures JoinedFrom(Split(license, "OR"), Alternatives(tree, and))
  {
    var alternatives := Alternatives(tree, and);
    assert PrintTree(tree, or, and) == Interleave(alternatives, or);
    assert |Lower(and)| == 3 && |Lower("OR")| == 2;
    forall p | p in alternatives ensures AreWords(p) && p != [] && FreeOf(p, "OR") {
      var i :| 0 <= i < |tree| && p == PrintAlternative(tree[i], and);
      assert tree[i] in tree && ValidAlternative(tree[i]);
      InterleavedWords(tree[i], and);
      InterleavedFree(tree[i], and, "OR");
    }
    GroupsOfInterleaved(alternatives, "OR", or);
    PartsAreJoined(alternatives);
  }

  /** What holds of all joined parts holds of all parts. */
  lemma AllJoined(t: Tables, allowed: seq<string>, parts: seq<string>, a: Alternative)
    requires JoinedFrom(parts, a)
    ensures (forall p :: p in parts ==> SomeRuleAllows(t, allowed, ParseTerm(t, p))) <==> TermsAllowed(t, allowed, a)
  {
    forall p | p in parts ensures exists c :: c in a && p == Join(c) {
      var i :| 0 <= i < |parts| && parts[i] == p;
      assert a[i] in a;
    }
    forall c | c in a ensures Join(c) in parts {
      var i :| 0 <= i < |a| && a[i] == c;
      assert parts[i] in parts;
    }
  }

  lemma AlternativeEvaluates(t: Tables, allowed: seq<string>, a: Alternative, and: string)
    requires ValidAlternative(a) && IsWord(and) && SameIgnoringCase(and, "AND")
    ensures AlternativeIsAllowed(t, allowed, Join(PrintAlternative(a, and))) <==> TermsAllowed(t, allowed, a)
  {
    AlternativeSplits(a, and);
    AllJoined(t, allowed, Split(Join(PrintAlternative(a, and)), "AND"), a);
  }

  lemma SomeOfEach<A, B>(xs: seq<A>, ys: seq<B>, p: A -> bool, q: B -> bool)
    requires |xs| == |ys| && forall i :: 0 <= i < |xs| ==> p(xs[i]) == q(ys[i])
    ensures (exists x :: x in xs && p(x)) <==> (exists y :: y in ys && q(y))
  {
    if x :| x in xs && p(x) {
      var i :| 0 <= i < |xs| && xs[i] == x;
      assert ys[i] in ys;
    }
    if y :| y in ys && q(y) {
      var i :| 0 <= i < |ys| && ys[i] == y;
      assert xs[i] in xs;
    }
  }

  /** Without parentheses an expression is allowed exactly when it is itself a rule, or
      the tree whose printed form it is says so, in whatever case the operators and
      with whatever space around them. */
  lemma ExpressionEvaluatesItsTree(t: Tables, allowed: seq<string>, license: string, tree: Tree, or: string, and: string)
    requires ValidTree(tree) && Operators(or, and) && Words(license) == PrintTree(tree, or, and)
    requires '(' !in license && ')' !in license
    ensures ExpressionIsAllowed(t, allowed, license) <==> ExactRule(allowed, license) || TreeIsAllowed(t, allowed, tree)
  {
    TreeSplits(license, tree, or, and);
    var parts := Split(license, "OR");
    forall i | 0 <= i < |tree|
      ensures parts[i] in parts && tree[i] in tree && AlternativeIsAllowed(t, allowed, parts[i]) == TermsAllowed(t, allowed, tree[i])
    {
      AlternativeEvaluates(t, allowed, tree[i], and);
    }
    SomeOfEach(parts, tree, p => AlternativeIsAllowed(t, allowed, p), a => TermsAllowed(t, allowed, a));
  }

  // ---- The deny list ----

  /** Parentheses separate words too. */
  function Spaced(s: string): string {
    seq(|s|, i requires 0 <= i < |s| => if s[i] == '(' || s[i] == ')' then ' ' else s[i])
  }

  /** Whether the rule matches among the words; `after` when the last word that is no
      AND or OR is WITH, so that the next is an exception. */
  predicate MatchesWords(t: Tables, rule: string, words: seq<string>, after: bool) {
    words != [] &&
    var w, rest := words[0], words[1..];
    if SameIgnoringCase(w, "WITH") then MatchesWords(t, rule, rest, true)
    else if SameIgnoringCase(w, "OR") || SameIgnoringCase(w, "AND") then MatchesWords(t, rule, rest, after)
    else (if after then SameIgnoringCase(w, rule) else SameFamily(t, w, rule)) || MatchesWords(t, rule, rest, false)
  }

  predicate Matches(t: Tables, rule: string, license: string) {
    var r := Trim(rule);
    r != "" && (SameIgnoringCase(r, license) ||
                ((forall i :: 0 <= i < |r| ==> !IsSpace(r[i])) && MatchesWords(t, r, Words(Spaced(license)), false)))
  }

  method MatchesLicense(t: Tables, rule: string, license: string) returns (matches: bool)
    ensures matches == Matches(t, rule, license)
  {
    var r := Trim(rule);
    if r == "" {
      return false;
    }
    if SameIgnoringCase(r, license) {
      return true;
    }
    if exists i :: 0 <= i < |r| && IsSpace(r[i]) {
      return false;
    }
    var words := Words(Spaced(license));
    var after := false;
    for i := 0 to |words|
      invariant MatchesWords(t, r, words, false) == MatchesWords(t, r, words[i..], after)
    {
      var w := words[i];
      assert words[i..][0] == w && words[i..][1..] == words[i + 1..];
      if SameIgnoringCase(w, "WITH") {
        after := true;
      } else if !SameIgnoringCase(w, "OR") && !SameIgnoringCase(w, "AND") {
        if after {
          after := false;
          if SameIgnoringCase(w, r) {
            return true;
          }
        } else if SameFamily(t, w, r) {
          return true;
        }
      }
    }
    matches := false;
  }

  /** A license id, or an id WITH an exception. */
  predicate SpdxTerm(c: Conjunct) {
    ValidConjunct(c) && !SameIgnoringCase(c[0], "WITH") &&
    (|c| == 1 || (|c| == 3 && SameIgnoringCase(c[1], "WITH") && !SameIgnoringCase(c[2], "WITH")))
  }

  /** Of the rule's family, exception or not, or the exception itself. */
  predicate Denied(t: Tables, rule: string, c: Conjunct)
    requires SpdxTerm(c)
  {
    SameFamily(t, c[0], rule) || (|c| == 3 && SameIgnoringCase(c[2], rule))
  }

  /** What was matched before `ys` does not depend on them, once no exception is due. */
  predicate After(words: seq<string>, after: bool) {
    if words == [] then after
    else if SameIgnoringCase(words[0], "WITH") then After(words[1..], true)
    else if SameIgnoringCase(words[0], "OR") || SameIgnoringCase(words[0], "AND") then After(words[1..], after)
    else After(words[1..], false)
  }

  lemma {:induction false} MatchesConcatenated(t: Tables, rule: string, xs: seq<string>, ys: seq<string>, after: bool)
    ensures MatchesWords(t, rule, xs + ys, after) <==> MatchesWords(t, rule, xs, after) || MatchesWords(t, rule, ys, After(xs, after))
    ensures After(xs + ys, after) == After(ys, After(xs, after))
  {
    if xs == [] {
      assert xs + ys == ys;
    } else {
      assert (xs + ys)[1..] == xs[1..] + ys;
      var w := xs[0];
      MatchesConcatenated(t, rule, xs[1..], ys,
        if SameIgnoringCase(w, "WITH") then true else if SameIgnoringCase(w, "OR") || SameIgnoringCase(w, "AND") then after else false);
    }
  }

  predicate IsOperatorWord(w: string) { SameIgnoringCase(w, "WITH") || SameIgnoringCase(w, "OR") || SameIgnoringCase(w, "AND") }

  lemma OneWord(t: Tables, rule: string, w: string, after: bool)
    ensures MatchesWords(t, rule, [w], after) <==>
      !IsOperatorWord(w) && (if after then SameIgnoringCase(w, rule) else SameFamily(t, w, rule))
    ensures After([w], after) == (SameIgnoringCase(w, "WITH") || (IsOperatorWord(w) && after))
  {
    assert [w][1..] == [];
  }

  lemma PairMatches(t: Tables, rule: string, id: string, with: string, exception: string)
    requires !IsOperatorWord(id) && SameIgnoringCase(with, "WITH") && !IsOperatorWord(exception)
    ensures MatchesWords(t, rule, [id] + [with] + [exception], false) <==> SameFamily(t, id, rule) || SameIgnoringCase(exception, rule)
    ensures !After([id] + [with] + [exception], false)
  {
    OneWord(t, rule, id, false);
    OneWord(t, rule, with, false);
    OneWord(t, rule, exception, true);
    MatchesConcatenated(t, rule, [id], [with], false);
    MatchesConcatenated(t, rule, [id] + [with], [exception], false);
  }

  lemma TermParts(c: Conjunct)
    requires SpdxTerm(c)
    ensures !IsOperatorWord(c[0])
    ensures if |c| == 1 then c == [c[0]] else c == [c[0]] + [c[1]] + [c[2]] && !IsOperatorWord(c[2])
  {
    assert c[0] in c && c[|c| - 1] in c;
  }

  lemma TermMatches(t: Tables, rule: string, c: Conjunct)
    requires SpdxTerm(c)
    ensures MatchesWords(t, rule, c, false) <==> Denied(t, rule, c)
    ensures !After(c, false)
  {
    TermParts(c);
    if |c| == 1 {
      OneWord(t, rule, c[0], false);
    } else {
      PairMatches(t, rule, c[0], c[1], c[2]);
    }
  }

  lemma SeparatorMatchesNothing(t: Tables, rule: string, sep: string)
    requires SameIgnoringCase(sep, "OR") || SameIgnoringCase(sep, "AND")
    ensures !MatchesWords(t, rule, [sep], false) && !After([sep], false)
  {
    OneWord(t, rule, sep, false);
    assert |Lower(sep)| < 4 && |Lower("WITH")| == 4;
  }

  lemma OnePartMore(t: Tables, rule: string, xs: seq<string>, sep: string, last: seq<string>)
    requires SameIgnoringCase(sep, "OR") || SameIgnoringCase(sep, "AND")
    requires !After(xs, false) && !After(last, false)
    ensures MatchesWords(t, rule, xs + [sep] + last, false) <==> MatchesWords(t, rule, xs, false) || MatchesWords(t, rule, last, false)
    ensures !After(xs + [sep] + last, false)
  {
    SeparatorMatchesNothing(t, rule, sep);
    MatchesConcatenated(t, rule, xs, [sep], false);
    MatchesConcatenated(t, rule, xs + [sep], last, false);
  }

  ghost predicate SomeMatches(t: Tables, rule: string, parts: seq<seq<string>>) {
    exists p :: p in parts && MatchesWords(t, rule, p, false)
  }

  lemma SomeOfOneMore(t: Tables, rule: string, init: seq<seq<string>>, last: seq<string>)
    ensures SomeMatches(t, rule, init + [last]) <==> SomeMatches(t, rule, init) || MatchesWords(t, rule, last, false)
  {
    var parts := init + [last];
    if p :| p in init && MatchesWords(t, rule, p, false) {
      assert p in parts;
    }
    assert last in parts;
  }

  /** No operator is a term. */
  lemma {:induction false} InterleavedMatches(t: Tables, rule: string, parts: seq<seq<string>>, sep: string)
    requires SameIgnoringCase(sep, "OR") || SameIgnoringCase(sep, "AND")
    requires forall p :: p in parts ==> !After(p, false)
    ensures MatchesWords(t, rule, Interleave(parts, sep), false) <==> SomeMatches(t, rule, parts)
    ensures !After(Interleave(parts, sep), false)
    decreases parts
  {
    if |parts| > 1 {
      var init, last := parts[..|parts| - 1], parts[|parts| - 1];
      assert parts == init + [last] && last in parts;
      InterleavedMatches(t, rule, init, sep);
      SomeOfOneMore(t, rule, init, last);
      OnePartMore(t, rule, Interleave(init, sep), sep, last);
    }
  }

  predicate SpdxTree(tree: Tree) { forall a :: a in tree ==> forall c :: c in a ==> SpdxTerm(c) }

  lemma AlternativeMatches(t: Tables, rule: string, a: Alternative, and: string)
    requires (forall c :: c in a ==> SpdxTerm(c)) && SameIgnoringCase(and, "AND")
    ensures MatchesWords(t, rule, PrintAlternative(a, and), false) <==> exists c :: c in a && SpdxTerm(c) && Denied(t, rule, c)
    ensures !After(PrintAlternative(a, and), false)
  {
    forall c | c in a ensures !After(c, false) && (MatchesWords(t, rule, c, false) <==> Denied(t, rule, c)) {
      TermMatches(t, rule, c);
    }
    InterleavedMatches(t, rule, a, and);
  }

  predicate DeniedIn(t: Tables, rule: string, a: Alternative) { exists c :: c in a && SpdxTerm(c) && Denied(t, rule, c) }

  /** A deny rule that is one id finds its licence, of whatever version form and with
      whatever exception, or its exception, anywhere in an expression, however it is
      parenthesised; and it finds nothing else. */
  lemma ADenyRuleFindsItsLicence(t: Tables, rule: string, license: string, tree: Tree, or: string, and: string)
    requires IsWord(rule) && SpdxTree(tree) && Operators(or, and)
    requires Words(Spaced(license)) == PrintTree(tree, or, and)
    ensures Matches(t, rule, license) <==> SameIgnoringCase(rule, license) || exists a :: a in tree && DeniedIn(t, rule, a)
  {
    WordsAreTrimmed(rule);
    var alternatives := Alternatives(tree, and);
    assert PrintTree(tree, or, and) == Interleave(alternatives, or);
    forall i | 0 <= i < |tree|
      ensures !After(alternatives[i], false) && MatchesWords(t, rule, alternatives[i], false) == DeniedIn(t, rule, tree[i])
    {
      assert tree[i] in tree;
      AlternativeMatches(t, rule, tree[i], and);
    }
    InterleavedMatches(t, rule, alternatives, or);
    SomeOfEach(alternatives, tree, p => MatchesWords(t, rule, p, false), a => DeniedIn(t, rule, a));
  }

  // ---- The policy of a feed ----

  datatype Action = Block | Warn

  datatype Policy = Policy(enabled: bool, allowed: seq<string>, blocked: seq<string>, allowUnlicensed: bool, action: Action)

  datatype Violation = Unlicensed | Blocked | NotAllowed

  datatype Outcome = Outcome(allowed: bool, violation: Option<Violation>)

  function Violates(p: Policy, v: Violation): Outcome { Outcome(p.action != Block, Some(v)) }

  /** The expression, or else the URL. */
  function Declared(expression: Option<string>, url: Option<string>): string {
    Trim(if expression.Some? then expression.value else url.GetOr(""))
  }

  function Evaluate(t: Tables, p: Policy, expression: Option<string>, url: Option<string>): Outcome {
    var license := Declared(expression, url);
    if !p.enabled then Outcome(true, None)
    else if license == "" then (if p.allowUnlicensed then Outcome(true, None) else Violates(p, Unlicensed))
    else if exists b :: b in p.blocked && Matches(t, b, license) then Violates(p, Blocked)
    else if p.allowed != [] && !ExpressionIsAllowed(t, p.allowed, license) then Violates(p, NotAllowed)
    else Outcome(true, None)
  }

  /** A longer allow list and a shorter deny list. */
  predicate Relaxes(p: Policy, p': Policy) {
    p'.enabled == p.enabled && p'.allowUnlicensed == p.allowUnlicensed && p'.action == p.action &&
    (forall a :: a in p.allowed ==> a in p'.allowed) && (p.allowed == [] ==> p'.allowed == []) &&
    (forall b :: b in p'.blocked ==> b in p.blocked)
  }

  lemma MoreRulesAllowMore(t: Tables, allowed: seq<string>, allowed': seq<string>, license: string)
    requires forall a :: a in allowed ==> a in allowed'
    ensures ExpressionIsAllowed(t, allowed, license) ==> ExpressionIsAllowed(t, allowed', license)
  {
    forall c | SomeRuleAllows(t, allowed, ParseTerm(t, c)) ensures SomeRuleAllows(t, allowed', ParseTerm(t, c)) {
      var a :| a in allowed && ParseTerm(t, a).Allows(t, ParseTerm(t, c));
      assert a in allowed';
    }
    forall alternative | AlternativeIsAllowed(t, allowed, alternative) ensures AlternativeIsAllowed(t, allowed', alternative) {}
  }

  /** Relaxing a policy never refuses or flags what it accepted. */
  lemma RelaxingKeepsAccepting(t: Tables, p: Policy, p': Policy, expression: Option<string>, url: Option<string>)
    requires Relaxes(p, p')
    ensures Evaluate(t, p, expression, url).violation.None? ==> Evaluate(t, p', expression, url).violation.None?
    ensures Evaluate(t, p, expression, url).allowed ==> Evaluate(t, p', expression, url).allowed
  {
    MoreRulesAllowMore(t, p.allowed, p'.allowed, Declared(expression, url));
  }
}
