/** The browse page of src/App.tsx: the cards loaded from `/works`, the tag pool
    derived from them, the selected-tag set, and the search / tag / sort pipeline
    that decides which cards are shown. */
module Browse {
  import opened Wrappers
  import opened Seqs
  import opened Text
  import opened Http

  /** A tag object of a listed work. */
  datatype TagRef = TagRef(tagId: string, name: string)

  /** A work as `/works` lists it; the empty string stands for a missing or falsy field. */
  datatype Work = Work(workId: string, id: string, title: string, description: string,
                       tags: seq<TagRef>, thumbnail: string)

  /** What the page renders for one work. */
  datatype Card = Card(id: string, title: string, body: string, tags: seq<string>, thumb: Option<string>)

  datatype SortMode = Popular | Newest | Featured

  /** How many cards the `featured` sort keeps. */
  const FeaturedCount: nat := 6

  // ===== work -> card =====

  function TagNames(tags: seq<TagRef>): (names: seq<string>)
    ensures |names| == |tags|
    ensures forall j :: 0 <= j < |tags| ==> names[j] == tags[j].name
  {
    seq(|tags|, j requires 0 <= j < |tags| => tags[j].name)
  }

  /** The card for one listed work: its id falls back from `workId` to `id`, its
      body from the description to "", its thumbnail to none. */
  function CardOf(w: Work): (c: Card)
    ensures w.workId != "" ==> c.id == w.workId
    ensures w.workId == "" ==> c.id == w.id
    ensures c.title == w.title && c.body == w.description
    ensures c.tags == TagNames(w.tags)
    ensures c.thumb.Some? <==> w.thumbnail != ""
    ensures c.thumb.Some? ==> c.thumb.value == w.thumbnail
  {
    Card(OrElse(w.workId, w.id), w.title, w.description, TagNames(w.tags),
         if w.thumbnail != "" then Some(w.thumbnail) else None)
  }

  function CardsOf(works: seq<Work>): (cards: seq<Card>)
    ensures |cards| == |works|
    ensures forall k :: 0 <= k < |works| ==> cards[k] == CardOf(works[k])
  {
    seq(|works|, k requires 0 <= k < |works| => CardOf(works[k]))
  }

  /** The cards a load installs: the mapped works of a successful reply (`works || []`),
      or nothing when the reply failed, was not ok, or was not JSON. */
  function LoadedCards(reply: Reply<Option<seq<Work>>>): Option<seq<Card>> {
    match reply
    case Response(status, body) =>
      if IsOk(status) && body.json.Parsed? then Some(CardsOf(body.json.value.GetOr([]))) else None
    case Rejected(_) => None
  }

  // ===== tag pool =====

  /** `t` is a tag of some card. */
  predicate OnSomeCard(cards: seq<Card>, t: string) {
    exists k :: 0 <= k < |cards| && t in cards[k].tags
  }

  predicate StrictlySorted(s: seq<string>) {
    forall i, j :: 0 <= i < j < |s| ==> Before(s[i], s[j])
  }

  predicate IsLeast(m: string, s: set<string>) {
    forall y :: y in s && y != m ==> Before(m, y)
  }

  /** The `TAGS` memo: every tag of every card goes into a set, and the set is
      sorted. The pool is strictly ascending (so free of duplicates) and holds
      exactly the tags that appear on some card. */
  method TagPool(cards: seq<Card>) returns (pool: seq<string>)
    ensures StrictlySorted(pool)
    ensures forall t :: t in pool <==> OnSomeCard(cards, t)
  {
    var seen: set<string> := {};
    for i := 0 to |cards|
      invariant forall t :: t in seen <==> OnSomeCard(cards[..i], t)
    {
      for j := 0 to |cards[i].tags|
        invariant forall t :: t in seen <==> OnSomeCard(cards[..i], t) || t in cards[i].tags[..j]
      {
        seen := seen + {cards[i].tags[j]};
      }
      assert cards[i].tags[..|cards[i].tags|] == cards[i].tags;
      forall t ensures OnSomeCard(cards[..i + 1], t) <==> OnSomeCard(cards[..i], t) || t in cards[i].tags {
        OnSomeCardSnoc(cards, i, t);
      }
    }
    assert cards[..|cards|] == cards;
    pool := SortedFromSet(seen);
  }

  lemma OnSomeCardSnoc(cards: seq<Card>, i: int, t: string)
    requires 0 <= i < |cards|
    ensures OnSomeCard(cards[..i + 1], t) <==> OnSomeCard(cards[..i], t) || t in cards[i].tags
  {
    if OnSomeCard(cards[..i + 1], t) {
      var k :| 0 <= k < i + 1 && t in cards[..i + 1][k].tags;
      if k < i {
        assert cards[..i][k] == cards[k];
      }
    }
    if OnSomeCard(cards[..i], t) {
      var k :| 0 <= k < i && t in cards[..i][k].tags;
      assert cards[..i + 1][k] == cards[k];
    }
    if t in cards[i].tags {
      assert cards[..i + 1][i] == cards[i];
    }
  }

  /** `Array.from(set).sort()`: lists the elements of `s` in ascending order, by
      repeatedly taking the least element left. */
  method SortedFromSet(s: set<string>) returns (r: seq<string>)
    ensures StrictlySorted(r)
    ensures forall t :: t in r <==> t in s
  {
    r := [];
    var rest := s;
    while rest != {}
      invariant forall t :: t in s <==> t in r || t in rest
      invariant forall t :: t in r ==> t !in rest
      invariant StrictlySorted(r)
      invariant forall i, t :: 0 <= i < |r| && t in rest ==> Before(r[i], t)
      decreases |rest|
    {
      LeastExists(rest);
      var m :| m in rest && IsLeast(m, rest);
      r := r + [m];
      rest := rest - {m};
    }
  }

  lemma LeastExists(s: set<string>)
    requires s != {}
    ensures exists m :: m in s && IsLeast(m, s)
  {
    var x :| x in s;
    var rest := s - {x};
    if rest == {} {
      assert s == {x};
    } else {
      LeastExists(rest);
      var m :| m in rest && IsLeast(m, rest);
      if Before(x, m) {
        forall y | y in s && y != x
          ensures Before(x, y)
        {
          if y != m {
            BeforeTransitive(x, m, y);
          }
        }
        assert IsLeast(x, s);
      } else {
        BeforeTotal(x, m);
        assert IsLeast(m, s);
      }
    }
  }

  /** Two strictly sorted lists of the same strings are the same list: the sorted
      pool depends on the set of tags only. */
  lemma {:induction false} SortedUnique(a: seq<string>, b: seq<string>)
    requires StrictlySorted(a) && StrictlySorted(b)
    requires forall t :: t in a <==> t in b
    ensures a == b
    decreases |a|
  {
    assert |a| > 0 ==> a[0] in b;
    assert |b| > 0 ==> b[0] in a;
    if |a| > 0 {
      if a[0] != b[0] {
        assert a[0] in b && b[0] in a;
        var k :| 0 <= k < |b| && b[k] == a[0];
        var j :| 0 <= j < |a| && a[j] == b[0];
        assert Before(b[0], a[0]) && Before(a[0], b[0]);
        BeforeAsymmetric(b[0], a[0]);
      }
      forall t
        ensures t in a[1..] <==> t in b[1..]
      {
        SortedTail(a, t);
        SortedTail(b, t);
      }
      SortedUnique(a[1..], b[1..]);
      assert a == [a[0]] + a[1..] && b == [b[0]] + b[1..];
    }
  }

  lemma SortedTail(a: seq<string>, t: string)
    requires StrictlySorted(a) && |a| > 0
    ensures t in a[1..] <==> t in a && t != a[0]
  {
    if t in a[1..] {
      var k :| 0 <= k < |a[1..]| && a[1..][k] == t;
      assert Before(a[0], a[k + 1]);
      BeforeIrreflexive(a[0]);
    }
    if t in a && t != a[0] {
      var k :| 0 <= k < |a| && a[k] == t;
      assert a[1..][k - 1] == t;
    }
  }

  /** Reordering the loaded cards does not change the tag pool. */
  lemma PoolIndependentOfOrder(c1: seq<Card>, c2: seq<Card>, p1: seq<string>, p2: seq<string>)
    requires multiset(c1) == multiset(c2)
    requires StrictlySorted(p1) && forall t :: t in p1 <==> OnSomeCard(c1, t)
    requires StrictlySorted(p2) && forall t :: t in p2 <==> OnSomeCard(c2, t)
    ensures p1 == p2
  {
    forall t
      ensures t in p1 <==> t in p2
    {
      OnSomeCardPermutation(c1, c2, t);
      OnSomeCardPermutation(c2, c1, t);
    }
    SortedUnique(p1, p2);
  }

  lemma OnSomeCardPermutation(c1: seq<Card>, c2: seq<Card>, t: string)
    requires multiset(c1) == multiset(c2)
    ensures OnSomeCard(c1, t) ==> OnSomeCard(c2, t)
  {
    if OnSomeCard(c1, t) {
      var k :| 0 <= k < |c1| && t in c1[k].tags;
      assert c1[k] in multiset(c1);
      assert c1[k] in c2;
      var k2 :| 0 <= k2 < |c2| && c2[k2] == c1[k];
    }
  }

  /** A tag is in the pool of the loaded cards iff some listed work carries a tag
      object of that name. */
  lemma PoolTagsComeFromWorks(works: seq<Work>, t: string)
    ensures OnSomeCard(CardsOf(works), t) <==>
            exists k, j :: 0 <= k < |works| && 0 <= j < |works[k].tags| && works[k].tags[j].name == t
  {
    var cards := CardsOf(works);
    if OnSomeCard(cards, t) {
      var k :| 0 <= k < |cards| && t in cards[k].tags;
      var j :| 0 <= j < |cards[k].tags| && cards[k].tags[j] == t;
      assert works[k].tags[j].name == t;
    }
    if exists k, j :: 0 <= k < |works| && 0 <= j < |works[k].tags| && works[k].tags[j].name == t {
      var k, j :| 0 <= k < |works| && 0 <= j < |works[k].tags| && works[k].tags[j].name == t;
      assert cards[k].tags[j] == t;
    }
  }

  // ===== selection =====

  /** `toggleTag`: flips the membership of `tag` and of nothing else. */
  function Toggle(selected: set<string>, tag: string): (next: set<string>)
    ensures tag in next <==> tag !in selected
    ensures forall t :: t != tag ==> (t in next <==> t in selected)
  {
    if tag in selected then selected - {tag} else selected + {tag}
  }

  lemma ToggleTwice(selected: set<string>, tag: string)
    ensures Toggle(Toggle(selected, tag), tag) == selected
  {
  }

  // ===== search + tag filter + sort =====

  /** `q.trim().toLowerCase()`. */
  function NormalizeQuery(q: string): string {
    Lower(Trim(q))
  }

  /** The search test: the query occurs in the lowered title, body or one of the lowered tags. */
  predicate MatchesQuery(c: Card, query: string) {
    Includes(Lower(c.title), query) || Includes(Lower(c.body), query)
    || exists j :: 0 <= j < |c.tags| && Includes(Lower(c.tags[j]), query)
  }

  /** Search stage: an empty query keeps every card. */
  function Search(cards: seq<Card>, query: string): seq<Card> {
    if query == "" then cards else Filter(cards, SearchTest(query))
  }

  function SearchTest(query: string): Card -> bool {
    c => MatchesQuery(c, query)
  }

  /** The tag test: the card carries every selected tag, compared exactly. */
  predicate HasAllTags(c: Card, selected: set<string>) {
    forall t :: t in selected ==> t in c.tags
  }

  /** Tag stage: an empty selection keeps every card. */
  function ByTags(cards: seq<Card>, selected: set<string>): seq<Card> {
    if |selected| == 0 then cards else Filter(cards, TagTest(selected))
  }

  function TagTest(selected: set<string>): Card -> bool {
    c => HasAllTags(c, selected)
  }

  /** Sort stage: `popular` keeps the order, `newest` reverses it, `featured` keeps the first six. */
  function Arrange(cards: seq<Card>, mode: SortMode): seq<Card> {
    match mode
    case Popular => cards
    case Newest => Reverse(cards)
    case Featured => Take(cards, FeaturedCount)
  }

  /** The `filtered` memo: the cards the page shows. */
  function Visible(cards: seq<Card>, q: string, selected: set<string>, mode: SortMode): seq<Card> {
    Arrange(ByTags(Search(cards, NormalizeQuery(q)), selected), mode)
  }

  /** The card passes the search and tag stages. */
  predicate Passes(c: Card, q: string, selected: set<string>) {
    (NormalizeQuery(q) == "" || MatchesQuery(c, NormalizeQuery(q))) && HasAllTags(c, selected)
  }

  lemma SearchMembers(cards: seq<Card>, query: string, c: Card)
    ensures c in Search(cards, query) <==> c in cards && (query == "" || MatchesQuery(c, query))
  {
    if query != "" {
      var r := Search(cards, query);
      if c in r {
        var i :| 0 <= i < |r| && r[i] == c;
      }
      if c in cards && MatchesQuery(c, query) {
        var i :| 0 <= i < |cards| && cards[i] == c;
      }
    }
  }

  lemma ByTagsMembers(cards: seq<Card>, selected: set<string>, c: Card)
    ensures c in ByTags(cards, selected) <==> c in cards && HasAllTags(c, selected)
  {
    var r := ByTags(cards, selected);
    if |selected| != 0 {
      if c in r {
        var i :| 0 <= i < |r| && r[i] == c;
      }
      if c in cards && HasAllTags(c, selected) {
        var i :| 0 <= i < |cards| && cards[i] == c;
      }
    }
  }

  /** Under `popular` and `newest` a card is shown iff it is loaded and passes both the
      search (the normalized query occurs in its lowered title, body or a lowered tag)
      and the tag filter (it carries every selected tag); under `featured` every shown
      card is such a card. */
  lemma VisibleMembers(cards: seq<Card>, q: string, selected: set<string>, mode: SortMode, c: Card)
    ensures mode != Featured ==> (c in Visible(cards, q, selected, mode) <==> c in cards && Passes(c, q, selected))
    ensures c in Visible(cards, q, selected, mode) ==> c in cards && Passes(c, q, selected)
  {
    var s := Search(cards, NormalizeQuery(q));
    var t := ByTags(s, selected);
    SearchMembers(cards, NormalizeQuery(q), c);
    ByTagsMembers(s, selected, c);
    ArrangeMembers(t, mode, c);
  }

  lemma ArrangeMembers(t: seq<Card>, mode: SortMode, c: Card)
    ensures mode != Featured ==> (c in Arrange(t, mode) <==> c in t)
    ensures c in Arrange(t, mode) ==> c in t
  {
    var v := Arrange(t, mode);
    if mode == Newest {
      if c in v {
        var i :| 0 <= i < |v| && v[i] == c;
        assert t[|t| - 1 - i] == c;
      }
      if c in t {
        var i :| 0 <= i < |t| && t[i] == c;
        assert v[|t| - 1 - i] == c;
      }
    } else if mode == Featured {
      if c in v {
        var i :| 0 <= i < |v| && v[i] == c;
        assert t[i] == c;
      }
    }
  }

  /** A blank query, no selected tags and `popular` show the loaded cards unchanged. */
  lemma UnfilteredShowsAll(cards: seq<Card>, q: string)
    requires AllSpace(q)
    ensures Visible(cards, q, {}, Popular) == cards
  {
    assert Trim(q) == [];
  }

  /** The search ignores case: queries that lower to the same text show the same cards. */
  lemma SearchIgnoresCase(cards: seq<Card>, q1: string, q2: string, selected: set<string>, mode: SortMode)
    requires Lower(q1) == Lower(q2)
    ensures Visible(cards, q1, selected, mode) == Visible(cards, q2, selected, mode)
  {
    TrimLowerCommute(q1);
    TrimLowerCommute(q2);
  }

  lemma SearchIsSubseq(cards: seq<Card>, query: string)
    ensures IsSubseq(Search(cards, query), cards)
  {
    if query == "" {
      SubseqRefl(cards);
    } else {
      FilterIsSubseq(cards, SearchTest(query));
    }
  }

  lemma ByTagsIsSubseq(cards: seq<Card>, selected: set<string>)
    ensures IsSubseq(ByTags(cards, selected), cards)
  {
    if |selected| == 0 {
      SubseqRefl(cards);
    } else {
      FilterIsSubseq(cards, TagTest(selected));
    }
  }

  /** Under `popular` and `featured` the shown cards are an order-preserving
      subsequence of the loaded cards; under `newest` they are exactly the reverse of
      what `popular` shows. */
  lemma VisibleKeepsOrder(cards: seq<Card>, q: string, selected: set<string>, mode: SortMode)
    ensures mode != Newest ==> IsSubseq(Visible(cards, q, selected, mode), cards)
    ensures mode == Newest ==> Visible(cards, q, selected, mode) == Reverse(Visible(cards, q, selected, Popular))
  {
    var s := Search(cards, NormalizeQuery(q));
    var t := ByTags(s, selected);
    SearchIsSubseq(cards, NormalizeQuery(q));
    ByTagsIsSubseq(s, selected);
    SubseqTrans(t, s, cards);
    if mode == Featured {
      PrefixIsSubseq(t, if FeaturedCount <= |t| then FeaturedCount else |t|);
      assert Take(t, FeaturedCount) == t[..if FeaturedCount <= |t| then FeaturedCount else |t|];
      SubseqTrans(Take(t, FeaturedCount), t, cards);
    }
  }

  /** `featured` shows at most six cards, and they are the first cards that `popular` shows. */
  lemma FeaturedIsPrefix(cards: seq<Card>, q: string, selected: set<string>)
    ensures var f, p := Visible(cards, q, selected, Featured), Visible(cards, q, selected, Popular);
            |f| == (if |p| < FeaturedCount then |p| else FeaturedCount) && f == p[..|f|]
  {
  }

  /** Selecting more tags never shows more cards, in every sort mode. Before sorting,
      and under `popular` and `newest`, the cards for the larger selection are a
      subsequence of those for the smaller one. Under `featured` they need not be:
      a card beyond the smaller selection's first six can be among the larger one's. */
  lemma MoreTagsFewerCards(cards: seq<Card>, q: string, small: set<string>, large: set<string>, mode: SortMode)
    requires small <= large
    ensures var s := Search(cards, NormalizeQuery(q)); IsSubseq(ByTags(s, large), ByTags(s, small))
    ensures mode != Featured ==> IsSubseq(Visible(cards, q, large, mode), Visible(cards, q, small, mode))
    ensures |Visible(cards, q, large, mode)| <= |Visible(cards, q, small, mode)|
  {
    var s := Search(cards, NormalizeQuery(q));
    if |small| == 0 {
      ByTagsIsSubseq(s, large);
    } else {
      assert |large| != 0 by {
        var t :| t in small;
        assert t in large;
      }
      FilterMonotone(s, TagTest(large), TagTest(small));
    }
    SubseqLength(ByTags(s, large), ByTags(s, small));
    if mode == Newest {
      SubseqReverse(ByTags(s, large), ByTags(s, small));
    }
  }

  /** The example of two loaded works: `Robot Arm` tagged `Hardware` and
      `Portfolio Site` tagged `Web` and `React`. */
  function Robot(): Card { Card("1", "Robot Arm", "", ["Hardware"], None) }
  function Site(): Card { Card("2", "Portfolio Site", "", ["Web", "React"], None) }

  /** Selecting `Web` shows exactly `Portfolio Site`. */
  lemma ExampleSelectWeb()
    ensures Visible([Robot(), Site()], "", {"Web"}, Popular) == [Site()]
  {
    var cards := [Robot(), Site()];
    var t := TagTest({"Web"});
    assert NormalizeQuery("") == "" by {
      assert Trim("") == "";
    }
    assert !t(Robot()) by {
      assert !HasAllTags(Robot(), {"Web"});
    }
    assert t(Site()) by {
      assert HasAllTags(Site(), {"Web"});
    }
    assert cards[1..] == [Site()] && [Site()][1..] == [];
    calc {
      Filter(cards, t);
      Filter([Site()], t);
      [Site()] + Filter([], t);
    }
  }

  /** Searching `robot` with no tags shows exactly `Robot Arm`. */
  lemma ExampleSearchRobot()
    ensures Visible([Robot(), Site()], "robot", {}, Popular) == [Robot()]
  {
    var cards := [Robot(), Site()];
    var p := SearchTest("robot");
    NormalizedRobot();
    RobotMatchesRobot();
    SiteMissesRobot();
    assert p(Robot()) && !p(Site());
    assert cards[1..] == [Site()] && [Site()][1..] == [];
    calc {
      Filter(cards, p);
      [Robot()] + Filter([Site()], p);
      [Robot()] + Filter([], p);
    }
  }

  /** Searching `portfolio` with `Hardware` selected shows nothing. */
  lemma ExampleNoResults()
    ensures Visible([Robot(), Site()], "portfolio", {"Hardware"}, Popular) == []
  {
    var cards := [Robot(), Site()];
    var p := SearchTest("portfolio");
    var t := TagTest({"Hardware"});
    NormalizedPortfolio();
    RobotMissesPortfolio();
    assert !p(Robot());
    assert !t(Site()) by {
      assert !HasAllTags(Site(), {"Hardware"});
    }
    assert cards[1..] == [Site()] && [Site()][1..] == [];
    assert Filter(cards, p) == Filter([Site()], p);
    assert Filter(Filter([Site()], p), t) == [] by {
      if p(Site()) {
        assert Filter([Site()], p) == [Site()] + Filter([], p);
      }
    }
  }

  lemma NormalizedRobot()
    ensures NormalizeQuery("robot") == "robot"
  {
    TrimUnpadded("robot");
    LowerWithoutCapitals("robot");
  }

  lemma NormalizedPortfolio()
    ensures NormalizeQuery("portfolio") == "portfolio"
  {
    TrimUnpadded("portfolio");
    LowerWithoutCapitals("portfolio");
  }

  lemma RobotMatchesRobot()
    ensures MatchesQuery(Robot(), "robot")
  {
    assert Lower("Robot Arm") == "robot arm";
    assert OccursAt("robot arm", "robot", 0);
  }

  lemma SiteMissesRobot()
    ensures !MatchesQuery(Site(), "robot")
  {
    assert Lower("Portfolio Site") == "portfolio site";
    assert Lower("") == "";
    assert Lower("Web") == "web";
    assert Lower("React") == "react";
    PortfolioSiteLacksRobot();
    assert !OccursAt("react", "robot", 0) by {
      assert "react"[1] != "robot"[1];
    }
  }

  lemma PortfolioSiteLacksRobot()
    ensures !Includes("portfolio site", "robot")
  {
    var s := "portfolio site";
    forall i | 0 <= i <= 9
      ensures !OccursAt(s, "robot", i)
    {
      var w := s[i..i + 5];
      assert w[0] == s[i] && w[1] == s[i + 1];
      if i == 0 { assert s[i] == 'p'; }
      else if i == 1 { assert s[i] == 'o'; }
      else if i == 2 { assert s[i + 1] == 't'; }
      else if i == 3 { assert s[i] == 't'; }
      else if i == 4 { assert s[i] == 'f'; }
      else if i == 5 { assert s[i] == 'o'; }
      else if i == 6 { assert s[i] == 'l'; }
      else if i == 7 { assert s[i] == 'i'; }
      else if i == 8 { assert s[i] == 'o'; }
      else { assert s[i] == ' '; }
    }
  }

  lemma RobotMissesPortfolio()
    ensures !MatchesQuery(Robot(), "portfolio")
  {
    assert Lower("Robot Arm") == "robot arm";
    assert Lower("") == "";
    assert Lower("Hardware") == "hardware";
    assert !OccursAt("robot arm", "portfolio", 0) by {
      assert "robot arm"[0] != "portfolio"[0];
    }
  }

  // ===== page state =====

  /** The state of the browse page: loaded cards, search text, selected tags, sort mode. */
  class Browser {
    var realCards: seq<Card>
    var q: string
    var selected: set<string>
    var sort: SortMode

    constructor ()
      ensures realCards == [] && q == "" && selected == {} && sort == Popular
    {
      realCards := [];
      q := "";
      selected := {};
      sort := Popular;
    }

    /** The mount effect's load: a successful reply installs its cards; any failure is swallowed. */
    method Load(reply: Reply<Option<seq<Work>>>)
      modifies this
      ensures realCards == LoadedCards(reply).GetOr(old(realCards))
      ensures q == old(q) && selected == old(selected) && sort == old(sort)
    {
      match LoadedCards(reply)
      case Some(cards) => realCards := cards;
      case None =>
    }

    method SetQuery(text: string)
      modifies this
      ensures q == text
      ensures realCards == old(realCards) && selected == old(selected) && sort == old(sort)
    {
      q := text;
    }

    method SetSort(mode: SortMode)
      modifies this
      ensures sort == mode
      ensures realCards == old(realCards) && q == old(q) && selected == old(selected)
    {
      sort := mode;
    }

    /** `toggleTag`: copies the selection, adds or deletes the one tag, installs the copy. */
    method ToggleTag(tag: string)
      modifies this
      ensures selected == Toggle(old(selected), tag)
      ensures realCards == old(realCards) && q == old(q) && sort == old(sort)
    {
      var next := selected;
      if tag in next {
        next := next - {tag};
      } else {
        next := next + {tag};
      }
      selected := next;
    }

    /** `clearAll`: empties the selection, after which its button is disabled. */
    method ClearAll()
      modifies this
      ensures selected == {} && ClearAllDisabled()
      ensures realCards == old(realCards) && q == old(q) && sort == old(sort)
    {
      selected := {};
    }

    /** The "Clear all" button is disabled exactly when nothing is selected. */
    predicate ClearAllDisabled()
      reads this
    {
      |selected| == 0
    }

    /** The cards the page shows now. */
    function Filtered(): seq<Card>
      reads this
    {
      Visible(realCards, q, selected, sort)
    }
  }
}
