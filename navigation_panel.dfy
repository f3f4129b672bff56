/** The navigation panel: the case-insensitive name search over the top-level
    bodies, the moons listed under the bodies that pass it, the icon of each
    kind, and the callbacks a click on an entry fires. */
module NavigationPanel {
  import opened SolarTypes

  datatype Icon = SunIcon | GlobeIcon | MoonIcon

  /** The icon for a body type string; unknown types get the globe. */
  function GetBodyIcon(kind: string): (icon: Icon)
    ensures icon == SunIcon <==> kind == BodyTypeName(Star)
    ensures icon == MoonIcon <==> kind == BodyTypeName(Moon)
    ensures icon == GlobeIcon <==> kind != BodyTypeName(Star) && kind != BodyTypeName(Moon)
  {
    if kind == "star" then SunIcon
    else if kind == "planet" then GlobeIcon
    else if kind == "moon" then MoonIcon
    else GlobeIcon
  }

  /** Every kind other than star and moon is shown with the globe. */
  lemma IconOfEveryKind(k: BodyType)
    ensures GetBodyIcon(BodyTypeName(k)) == (match k case Star => SunIcon case Moon => MoonIcon case _ => GlobeIcon)
  {
  }

  /** toLowerCase on the ASCII letters. */
  function LowerAscii(c: char): char {
    if 'A' <= c <= 'Z' then (c as int + 32) as char else c
  }

  function Lower(s: string): (r: string)
    ensures |r| == |s| && forall i :: 0 <= i < |s| ==> r[i] == LowerAscii(s[i])
  {
    seq(|s|, i requires 0 <= i < |s| => LowerAscii(s[i]))
  }

  /** t occurs in s starting at offset i. */
  predicate OccursAt(s: string, t: string, i: nat) {
    i + |t| <= |s| && s[i..i + |t|] == t
  }

  /** An occurrence one place further in s is an occurrence in s without its first character. */
  lemma OccursShift(s: string, t: string, i: nat)
    requires |s| > 0
    ensures OccursAt(s, t, i + 1) <==> OccursAt(s[1..], t, i)
  {
    if i + 1 + |t| <= |s| {
      var inS, inTail := s[i + 1..i + 1 + |t|], s[1..][i..i + |t|];
      assert forall k :: 0 <= k < |t| ==> inS[k] == inTail[k];
      assert inS == inTail;
    }
  }

  /** String.prototype.includes: t occurs in s at some offset. */
  function Includes(s: string, t: string): (b: bool)
    ensures b <==> exists i: nat :: OccursAt(s, t, i)
    decreases |s|
  {
    if |t| <= |s| && s[..|t|] == t then
      assert OccursAt(s, t, 0);
      true
    else if |s| <= |t| then
      false
    else
      var rest := Includes(s[1..], t);
      assert forall i: nat :: OccursAt(s, t, i + 1) <==> OccursAt(s[1..], t, i) by {
        forall i: nat
          ensures OccursAt(s, t, i + 1) <==> OccursAt(s[1..], t, i)
        {
          OccursShift(s, t, i);
        }
      }
      assert !OccursAt(s, t, 0);
      assert forall i: nat :: OccursAt(s, t, i) ==> i == 0 || OccursAt(s[1..], t, i - 1);
      rest
  }

  /** The search predicate of one body. */
  predicate Matches(body: Body, searchTerm: string) {
    Includes(Lower(body.name), Lower(searchTerm))
  }

  /** filteredBodies. */
  function FilteredBodies(bodies: seq<Body>, searchTerm: string): (r: seq<Body>)
    ensures |r| <= |bodies|
    ensures forall b :: b in r ==> b in bodies && Matches(b, searchTerm)
  {
    if bodies == [] then []
    else if Matches(bodies[0], searchTerm) then [bodies[0]] + FilteredBodies(bodies[1..], searchTerm)
    else FilteredBodies(bodies[1..], searchTerm)
  }

  /** A body is listed exactly when it is one of the bodies and its name matches. */
  lemma {:induction false} FilterKeepsExactlyMatches(bodies: seq<Body>, searchTerm: string, b: Body)
    ensures b in FilteredBodies(bodies, searchTerm) <==> b in bodies && Matches(b, searchTerm)
  {
    if bodies != [] {
      FilterKeepsExactlyMatches(bodies[1..], searchTerm, b);
      assert b in bodies <==> b == bodies[0] || b in bodies[1..];
    }
  }

  /** The filter keeps the original order: it distributes over concatenation. */
  lemma {:induction false} FilterDistributes(a: seq<Body>, b: seq<Body>, searchTerm: string)
    ensures FilteredBodies(a + b, searchTerm) == FilteredBodies(a, searchTerm) + FilteredBodies(b, searchTerm)
  {
    if a != [] {
      assert (a + b)[1..] == a[1..] + b;
      FilterDistributes(a[1..], b, searchTerm);
    } else {
      assert a + b == b;
    }
  }

  /** An empty search term lists every body. */
  lemma {:induction false} EmptySearchKeepsAll(bodies: seq<Body>)
    ensures FilteredBodies(bodies, "") == bodies
  {
    if bodies != [] {
      assert OccursAt(Lower(bodies[0].name), Lower(""), 0);
      EmptySearchKeepsAll(bodies[1..]);
    }
  }

  /** The search ignores the case of ASCII letters in the term. */
  lemma SearchIgnoresCase(body: Body, t1: string, t2: string)
    requires Lower(t1) == Lower(t2)
    ensures Matches(body, t1) <==> Matches(body, t2)
  {
  }

  /** The "no match" message is shown exactly when no body's name matches. */
  lemma NoMatchMessage(bodies: seq<Body>, searchTerm: string)
    ensures |FilteredBodies(bodies, searchTerm)| == 0 <==> forall b :: b in bodies ==> !Matches(b, searchTerm)
  {
    if |FilteredBodies(bodies, searchTerm)| != 0 {
      var b := FilteredBodies(bodies, searchTerm)[0];
      assert b in FilteredBodies(bodies, searchTerm);
    } else {
      forall b | b in bodies
        ensures !Matches(b, searchTerm)
      {
        FilterKeepsExactlyMatches(bodies, searchTerm, b);
      }
    }
  }

  /** A moon row, with the listed body it belongs to. */
  datatype MoonEntry = MoonEntry(moon: Body, parent: Body)

  /** The moon rows listed after the body rows: the moons of each listed body, in order. */
  function MoonEntries(listed: seq<Body>): (r: seq<MoonEntry>)
    ensures forall e :: e in r ==> e.parent in listed && e.moon in e.parent.moons
    ensures listed != [] ==> forall m :: m in listed[0].moons ==> MoonEntry(m, listed[0]) in r
  {
    if listed == [] then []
    else
      var p := listed[0];
      var own := seq(|p.moons|, j requires 0 <= j < |p.moons| => MoonEntry(p.moons[j], p));
      assert forall m :: m in p.moons ==> MoonEntry(m, p) in own by {
        forall m | m in p.moons
          ensures MoonEntry(m, p) in own
        {
          var j :| 0 <= j < |p.moons| && p.moons[j] == m;
          assert own[j] == MoonEntry(m, p);
        }
      }
      own + MoonEntries(listed[1..])
  }

  lemma {:induction false} MoonEntriesMembers(listed: seq<Body>, e: MoonEntry)
    ensures e in MoonEntries(listed) <==> e.parent in listed && e.moon in e.parent.moons
  {
    if listed != [] {
      var p := listed[0];
      var own := seq(|p.moons|, j requires 0 <= j < |p.moons| => MoonEntry(p.moons[j], p));
      MoonEntriesMembers(listed[1..], e);
      assert e in own <==> e.parent == p && e.moon in p.moons by {
        if e.parent == p && e.moon in p.moons {
          var j :| 0 <= j < |p.moons| && p.moons[j] == e.moon;
          assert own[j] == e;
        }
      }
      assert listed == [p] + listed[1..];
    }
  }

  /** A moon is listed exactly when its parent body is listed: the moon's own
      name plays no part, so a matching moon of a non-matching parent is hidden. */
  lemma MoonListedWithParent(bodies: seq<Body>, searchTerm: string, e: MoonEntry)
    ensures e in MoonEntries(FilteredBodies(bodies, searchTerm))
        <==> e.parent in bodies && Matches(e.parent, searchTerm) && e.moon in e.parent.moons
  {
    MoonEntriesMembers(FilteredBodies(bodies, searchTerm), e);
    FilterKeepsExactlyMatches(bodies, searchTerm, e.parent);
  }

  /** The moon badge of a body row: no badge without moons, and the word
      "moon" gets a plural s exactly when there is more than one. */
  datatype Badge = Badge(count: nat, word: string)

  function MoonBadge(body: Body): (b: Option<Badge>)
    ensures b.None? <==> |body.moons| == 0
    ensures b.Some? ==> b.value.count == |body.moons|
    ensures b.Some? ==> (b.value.word == "moons" <==> |body.moons| > 1)
  {
    if |body.moons| > 0 then Some(Badge(|body.moons|, "moon" + (if |body.moons| > 1 then "s" else "")))
    else None
  }

  /** A row is highlighted when the selection equals its id. */
  predicate RowHighlighted(selectedBody: Option<string>, body: Body) {
    selectedBody == Some(body.id)
  }

  /** handleNavigate: the two callbacks in order, and whether the panel stays open. */
  datatype NavigateEffect = NavigateEffect(callbacks: seq<Callback>, open: bool)

  function HandleNavigate(bodyId: string): (e: NavigateEffect)
    ensures |e.callbacks| == 2 && !e.open
    ensures e.callbacks[0] == NavigateTo(bodyId)
    ensures e.callbacks[1] == BodySelect(Some(bodyId))
  {
    NavigateEffect([NavigateTo(bodyId), BodySelect(Some(bodyId))], false)
  }

  /** "View the Sun" navigates to the Sun. */
  function HandleOverview(): (e: NavigateEffect)
    ensures e.callbacks == [NavigateTo(Sun.id), BodySelect(Some(Sun.id))] && !e.open
  {
    HandleNavigate("sun")
  }

  /** A click on a body row or a moon row navigates to that very body. */
  function RowClick(body: Body): (e: NavigateEffect)
    ensures e.callbacks == [NavigateTo(body.id), BodySelect(Some(body.id))] && !e.open
  {
    HandleNavigate(body.id)
  }

  lemma MoonRowNavigatesToMoon(e: MoonEntry)
    ensures RowClick(e.moon).callbacks[1] == BodySelect(Some(e.moon.id))
  {
  }
}
