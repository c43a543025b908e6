/** How the chat route names a new fund (backend/api/routes/chat.py): the
    agent's `name`, else the first two themes title-cased and run together
    plus " Fund", else "New Growth Fund"; and the URL slug made from it:
    lower-cased, every run of characters outside [a-z0-9] replaced by one
    hyphen, hyphens stripped from both ends. */
module ChatNaming {
  import opened Wrappers
  import opened JsonValues
  import opened Text

  const DefaultFundName := "New Growth Fund"

  /** `t.title()` for each theme: every one must be a string. */
  function Titles(themes: seq<Json>): (r: Result<seq<string>, string>)
    ensures r.Success? <==> forall k :: 0 <= k < |themes| ==> themes[k].JStr?
    ensures r.Success? ==> |r.value| == |themes| && forall k :: 0 <= k < |themes| ==> r.value[k] == Title(themes[k].s)
  {
    if themes == [] then Success([])
    else if !themes[0].JStr? then Failure("AttributeError: object has no attribute 'title'")
    else match Titles(themes[1..])
      case Failure(e) => Failure(e)
      case Success(rest) => Success([Title(themes[0].s)] + rest)
  }

  /** The default argument of `fund_params.get("name", …)`.  Python evaluates it
      even when "name" is present, so its failures count either way. */
  function DerivedName(themes: Json): (r: Result<string, string>)
    ensures !Truthy(themes) ==> r == Success(DefaultFundName)
    ensures Truthy(themes) && !themes.JArr? && !themes.JStr? ==> r.Failure?
    ensures Truthy(themes) && themes.JArr? ==>
              (r.Success? <==> forall k :: 0 <= k < |themes.items| && k < 2 ==> themes.items[k].JStr?)
    ensures r.Success? && Truthy(themes) ==> |r.value| >= 5 && r.value[|r.value| - 5..] == " Fund"
  {
    if !Truthy(themes) then Success(DefaultFundName)
    else match Prefix(themes, 2)
      case Failure(e) => Failure(e)
      case Success(first) =>
        match Titles(first)
        case Failure(e) => Failure(e)
        case Success(ts) => Success(Concat(ts) + " Fund")
  }

  /** `fund_params.get("name", <derived name>)`. */
  function FundName(fundParams: Obj, themes: Json): (r: Result<Json, string>)
    ensures r.Success? <==> DerivedName(themes).Success?
    ensures r.Success? && "name" in fundParams ==> r.value == fundParams["name"]
    ensures r.Success? && "name" !in fundParams ==> r.value == JStr(DerivedName(themes).value)
  {
    match DerivedName(themes)
    case Failure(e) => Failure(e)
    case Success(d) => Success(Lookup(fundParams, "name", JStr(d)))
  }

  // ---------------------------------------------------------------------
  // Slugs

  predicate SlugChar(c: char) {
    ('a' <= c <= 'z') || ('0' <= c <= '9')
  }

  predicate SlugAlphabet(s: string) {
    forall k :: 0 <= k < |s| ==> SlugChar(s[k]) || s[k] == '-'
  }

  predicate NoDoubleHyphen(s: string) {
    forall k :: 0 <= k < |s| - 1 ==> !(s[k] == '-' && s[k + 1] == '-')
  }

  predicate NoEdgeHyphen(s: string) {
    s == [] || (s[0] != '-' && s[|s| - 1] != '-')
  }

  /** `re.sub(r'[^a-z0-9]+', '-', s)`; `inRun` says the character before was
      already part of a replaced run. */
  function Collapse(s: string, inRun: bool): string
    decreases |s|
  {
    if s == [] then []
    else if SlugChar(s[0]) then [s[0]] + Collapse(s[1..], false)
    else if inRun then Collapse(s[1..], true)
    else ['-'] + Collapse(s[1..], true)
  }

  /** Leading hyphens removed. */
  function DropLeading(s: string): (r: string)
    ensures |r| <= |s| && r == s[|s| - |r|..]
    ensures r == [] || r[0] != '-'
  {
    if s != [] && s[0] == '-' then DropLeading(s[1..]) else s
  }

  /** Trailing hyphens removed. */
  function DropTrailing(s: string): (r: string)
    ensures |r| <= |s| && r == s[..|r|]
    ensures r == [] || r[|r| - 1] != '-'
  {
    if s != [] && s[|s| - 1] == '-' then DropTrailing(s[..|s| - 1]) else s
  }

  /** `.strip('-')`. */
  function StripHyphens(s: string): string {
    DropLeading(DropTrailing(s))
  }

  /** The chat route's slug. */
  function Slug(name: string): (r: string)
    ensures SlugAlphabet(r) && NoDoubleHyphen(r) && NoEdgeHyphen(r)
  {
    CollapseShape(Lower(name), false);
    StripShape(Collapse(Lower(name), false));
    StripHyphens(Collapse(Lower(name), false))
  }

  // ---------------------------------------------------------------------
  // Properties

  /** Collapsing leaves only [a-z0-9] and single hyphens, and a run in
      progress emits no hyphen at the start. */
  lemma {:induction false} CollapseShape(s: string, inRun: bool)
    ensures SlugAlphabet(Collapse(s, inRun)) && NoDoubleHyphen(Collapse(s, inRun))
    ensures inRun ==> Collapse(s, inRun) == [] || Collapse(s, inRun)[0] != '-'
    decreases |s|
  {
    if s != [] {
      if SlugChar(s[0]) {
        CollapseShape(s[1..], false);
      } else {
        CollapseShape(s[1..], true);
      }
    }
  }

  /** Stripping keeps a slice, so the alphabet and the single hyphens survive,
      and no hyphen is left at either end. */
  lemma StripShape(s: string)
    requires SlugAlphabet(s) && NoDoubleHyphen(s)
    ensures SlugAlphabet(StripHyphens(s)) && NoDoubleHyphen(StripHyphens(s)) && NoEdgeHyphen(StripHyphens(s))
  {
    var t := DropTrailing(s);
    var u := DropLeading(t);
    var a := |t| - |u|;
    assert u == s[a..|t|] by {
      assert t[a..] == s[..|t|][a..] == s[a..|t|];
    }
    SliceShape(s, a, |t|);
    assert NoEdgeHyphen(u) by {
      if u != [] {
        assert u[|u| - 1] == t[|t| - 1];
      }
    }
  }

  /** A slice of text in slug form is in slug form too. */
  lemma SliceShape(s: string, a: nat, b: nat)
    requires a <= b <= |s|
    requires SlugAlphabet(s) && NoDoubleHyphen(s)
    ensures SlugAlphabet(s[a..b]) && NoDoubleHyphen(s[a..b])
  {
    assert forall k :: 0 <= k < b - a ==> s[a..b][k] == s[a + k];
  }

  /** A slug uses only [a-z0-9-], never two hyphens in a row, and no hyphen at
      either end. */
  lemma SlugShape(name: string)
    ensures SlugAlphabet(Slug(name)) && NoDoubleHyphen(Slug(name)) && NoEdgeHyphen(Slug(name))
  {
    CollapseShape(Lower(name), false);
    StripShape(Collapse(Lower(name), false));
  }

  /** A string already in slug form is left alone by the collapsing step. */
  lemma {:induction false} CollapseFixed(s: string, inRun: bool)
    requires SlugAlphabet(s) && NoDoubleHyphen(s)
    requires inRun && s != [] ==> s[0] != '-'
    ensures Collapse(s, inRun) == s
    decreases |s|
  {
    if s != [] {
      assert SlugAlphabet(s[1..]) && NoDoubleHyphen(s[1..]);
      if SlugChar(s[0]) {
        CollapseFixed(s[1..], false);
      } else {
        assert s[0] == '-' && !inRun;
        assert |s| > 1 ==> s[1] != '-';
        CollapseFixed(s[1..], true);
      }
    }
  }

  /** A string without edge hyphens is left alone by stripping. */
  lemma StripFixed(s: string)
    requires NoEdgeHyphen(s)
    ensures StripHyphens(s) == s
  {
  }

  /** Slugging a slug changes nothing. */
  lemma SlugIdempotent(name: string)
    ensures Slug(Slug(name)) == Slug(name)
  {
    var s := Slug(name);
    SlugShape(name);
    assert Lower(s) == s by {
      assert forall k :: 0 <= k < |s| ==> LowerChar(s[k]) == s[k];
    }
    CollapseFixed(s, false);
    StripFixed(s);
  }

  /** A lower-case word keeps its letters after the first when it follows a cased letter. */
  lemma {:induction false} TitleFromLowerTail(w: string)
    requires forall k :: 0 <= k < |w| ==> 'a' <= w[k] <= 'z'
    ensures TitleFrom(w, true) == w
    decreases |w|
  {
    if w != [] {
      TitleFromLowerTail(w[1..]);
      assert [w[0]] + w[1..] == w;
    }
  }

  /** `w.title()` on a lower-case word upper-cases its first letter only:
      `"fintech".title()` is "Fintech". */
  lemma TitleLowerWord(w: string)
    requires w != [] && forall k :: 0 <= k < |w| ==> 'a' <= w[k] <= 'z'
    ensures Title(w) == [UpperChar(w[0])] + w[1..]
  {
    TitleFromLowerTail(w[1..]);
  }

  /** `"fintech".title()` is "Fintech" and `"ai".title()` is "Ai". */
  lemma TitleExamples()
    ensures Title("fintech") == "Fintech" && Title("ai") == "Ai"
  {
    TitleLowerWord("fintech");
    assert "fintech"[1..] == "intech";
    TitleLowerWord("ai");
    assert "ai"[1..] == "i";
  }

  /** Themes ["fintech", "ai"] and no name give "FintechAi Fund". */
  lemma NameExample(fundParams: Obj)
    requires "name" !in fundParams
    ensures FundName(fundParams, JArr([JStr("fintech"), JStr("ai")])) == Success(JStr("FintechAi Fund"))
  {
    ExampleDerived();
  }

  lemma ExampleDerived()
    ensures DerivedName(JArr([JStr("fintech"), JStr("ai")])) == Success("FintechAi Fund")
  {
    assert Prefix(JArr([JStr("fintech"), JStr("ai")]), 2) == Success([JStr("fintech"), JStr("ai")]);
    ExampleTitles();
    ExampleConcat();
  }

  lemma ExampleConcat()
    ensures Concat(["Fintech", "Ai"]) + " Fund" == "FintechAi Fund"
  {
    assert Concat(["Fintech", "Ai"]) == "FintechAi";
  }

  lemma ExampleTitles()
    ensures Titles([JStr("fintech"), JStr("ai")]) == Success(["Fintech", "Ai"])
  {
    TitleExamples();
    assert [JStr("fintech"), JStr("ai")][1..] == [JStr("ai")];
    var none: seq<Json> := [];
    var noTitles: seq<string> := [];
    assert [JStr("ai")][1..] == none;
    assert Titles(none) == Success(noTitles);
    assert [Title("ai")] + noTitles == ["Ai"];
    assert Titles([JStr("ai")]) == Success(["Ai"]);
    assert [Title("fintech")] + ["Ai"] == ["Fintech", "Ai"];
  }

  /** Without themes the name is "New Growth Fund"; a given name always wins
      when the default can be evaluated. */
  lemma NameRules(fundParams: Obj, themes: Json)
    ensures !Truthy(themes) && "name" !in fundParams ==> FundName(fundParams, themes) == Success(JStr(DefaultFundName))
    ensures !Truthy(themes) && "name" in fundParams ==> FundName(fundParams, themes) == Success(fundParams["name"])
  {
  }

  /** A given name does not protect against a theme list whose first items
      are not strings: the eagerly evaluated default raises first. */
  lemma NameNeedsStringThemes(name: Json)
    ensures FundName(map["name" := name], JArr([JNum(1.0)])).Failure?
  {
    assert Prefix(JArr([JNum(1.0)]), 2) == Success([JNum(1.0)]);
  }

  /** A word of slug characters is copied, and ends any run. */
  lemma {:induction false} CollapseWord(w: string, rest: string, inRun: bool)
    requires w != [] && forall k :: 0 <= k < |w| ==> SlugChar(w[k])
    ensures Collapse(w + rest, inRun) == w + Collapse(rest, false)
    decreases |w|
  {
    assert (w + rest)[1..] == w[1..] + rest;
    if |w| > 1 {
      CollapseWord(w[1..], rest, false);
    }
    assert [w[0]] + w[1..] == w;
  }

  /** A separator starts a run with one hyphen, or disappears inside a run. */
  lemma CollapseSeparator(c: char, rest: string)
    requires !SlugChar(c)
    ensures Collapse([c] + rest, false) == "-" + Collapse(rest, true)
    ensures Collapse([c] + rest, true) == Collapse(rest, true)
  {
    assert ([c] + rest)[1..] == rest;
  }

  /** "FintechAi Fund" becomes "fintechai-fund". */
  lemma SlugExample()
    ensures Slug("FintechAi Fund") == "fintechai-fund"
  {
    LowerExample();
    CollapseExample();
    StripFixed("fintechai-fund");
  }

  lemma LowerExample()
    ensures Lower("FintechAi Fund") == "fintechai fund"
  {
    var lower := Lower("FintechAi Fund");
    assert |lower| == 14;
    forall k | 0 <= k < 14 ensures lower[k] == "fintechai fund"[k] {
    }
  }

  lemma CollapseExample()
    ensures Collapse("fintechai fund", false) == "fintechai-fund"
  {
    assert "fintechai fund" == "fintechai" + ([' '] + "fund");
    CollapseTwoWords("fintechai", ' ', "fund");
    assert "fintechai" + ("-" + "fund") == "fintechai-fund";
  }

  /** Two words with one separator between them become "word-word". */
  lemma CollapseTwoWords(w1: string, sep: char, w2: string)
    requires w1 != [] && forall k :: 0 <= k < |w1| ==> SlugChar(w1[k])
    requires w2 != [] && forall k :: 0 <= k < |w2| ==> SlugChar(w2[k])
    requires !SlugChar(sep)
    ensures Collapse(w1 + ([sep] + w2), false) == w1 + ("-" + w2)
  {
    assert w2 + [] == w2;
    CollapseWord(w2, [], true);
    CollapseSeparator(sep, w2);
    CollapseWord(w1, [sep] + w2, false);
  }

  /** Runs of several separators become one hyphen, and separators at the ends vanish. */
  lemma SlugCollapsesRuns()
    ensures Slug(" A & B ") == "a-b"
  {
    RunsLowered();
    RunsCollapsed();
    RunsStripped();
  }

  lemma RunsStripped()
    ensures StripHyphens("-a-b-") == "a-b"
  {
    assert DropTrailing("-a-b-") == "-a-b";
    assert DropLeading("-a-b") == "a-b";
  }

  lemma RunsLowered()
    ensures Lower(" A & B ") == " a & b "
  {
    var lower := Lower(" A & B ");
    assert |lower| == 7;
    forall k | 0 <= k < 7 ensures lower[k] == " a & b "[k] {
    }
  }

  lemma RunsCollapsed()
    ensures Collapse(" a & b ", false) == "-a-b-"
  {
    var tail: string := [' '] + [];
    var b := "b" + tail;
    assert " a & b " == [' '] + ("a" + ([' '] + (['&'] + ([' '] + b))));
    CollapseSeparator(' ', []);
    CollapseWord("b", tail, true);
    CollapseSeparator(' ', b);
    CollapseSeparator('&', [' '] + b);
    CollapseSeparator(' ', ['&'] + ([' '] + b));
    CollapseWord("a", [' '] + (['&'] + ([' '] + b)), true);
    CollapseSeparator(' ', "a" + ([' '] + (['&'] + ([' '] + b))));
  }
}
