// The public services page: the distinct categories of the fetched services
// in first-occurrence order, one section per category listing that
// category's services in their original order, and a "Book Now" link per
// service.
module ServicesPage {
  import opened Results
  import opened Types
  import opened Strings

  /** No value occurs twice. */
  predicate NoDuplicates(xs: seq<string>) {
    forall i, j :: 0 <= i < j < |xs| ==> xs[i] != xs[j]
  }

  /** The position of the first occurrence of `x` in `xs`. */
  function FirstPosition(xs: seq<string>, x: string): (r: nat)
    requires x in xs
    ensures r < |xs| && xs[r] == x
    ensures forall k :: 0 <= k < r ==> xs[k] != x
  {
    if xs[0] == x then 0 else 1 + FirstPosition(xs[1..], x)
  }

  /** What `[...new Set(xs)]` yields: each value once, in the order of its
      first insertion. */
  function Dedup(xs: seq<string>): (r: seq<string>)
    ensures NoDuplicates(r)
    ensures forall x :: x in r <==> x in xs
    ensures |r| <= |xs|
  {
    if xs == [] then []
    else
      var d := Dedup(xs[..|xs| - 1]);
      var last := xs[|xs| - 1];
      assert xs == xs[..|xs| - 1] + [last];
      if last in d then d else d + [last]
  }

  /** The categories of `services`, in order, duplicates included. */
  function CategoryList(services: seq<Service>): (r: seq<string>)
    ensures |r| == |services|
    ensures forall i :: 0 <= i < |services| ==> r[i] == services[i].category
  {
    seq(|services|, i requires 0 <= i < |services| => services[i].category)
  }

  /** `services ? [...new Set(services.map((s) => s.category))] : []`. */
  function Categories(services: Option<seq<Service>>): (cats: seq<string>)
    ensures services.None? ==> cats == []
    ensures NoDuplicates(cats)
    ensures services.Some? ==>
      forall c :: c in cats <==> exists s :: s in services.value && s.category == c
  {
    match services
    case None => []
    case Some(ss) =>
      var cats := Dedup(CategoryList(ss));
      assert forall c :: c in CategoryList(ss) <==> exists s :: s in ss && s.category == c by {
        forall c | c in CategoryList(ss) ensures exists s :: s in ss && s.category == c {
          var i :| 0 <= i < |ss| && CategoryList(ss)[i] == c;
          assert ss[i] in ss;
        }
        forall c | exists s :: s in ss && s.category == c ensures c in CategoryList(ss) {
          var s :| s in ss && s.category == c;
          var i :| 0 <= i < |ss| && ss[i] == s;
          assert CategoryList(ss)[i] == c;
        }
      }
      cats
  }

  /** Dedup keeps first occurrences in their original order: of two
      categories, the one listed first was met first. */
  lemma {:induction false} DedupKeepsFirstOccurrenceOrder(xs: seq<string>, i: int, j: int)
    requires 0 <= i < j < |Dedup(xs)|
    ensures Dedup(xs)[i] in xs && Dedup(xs)[j] in xs
    ensures FirstPosition(xs, Dedup(xs)[i]) < FirstPosition(xs, Dedup(xs)[j])
  {
    var init := xs[..|xs| - 1];
    var last := xs[|xs| - 1];
    assert xs == init + [last];
    var d := Dedup(init);
    FirstPositionPrefix(init, last, Dedup(xs)[i]);
    if j < |d| {
      DedupKeepsFirstOccurrenceOrder(init, i, j);
      FirstPositionPrefix(init, last, Dedup(xs)[j]);
    } else {
      // The new last category was not among the earlier ones.
      assert Dedup(xs)[j] == last && last !in init;
      assert FirstPosition(xs, last) == |init| by {
        forall k | 0 <= k < |init| ensures xs[k] != last {
          assert xs[k] == init[k];
        }
      }
    }
  }

  /** Appending at the end does not move a first occurrence already there. */
  lemma {:induction false} FirstPositionPrefix(init: seq<string>, last: string, x: string)
    requires x in init
    ensures x in init + [last] && FirstPosition(init + [last], x) == FirstPosition(init, x)
  {
    if init[0] != x {
      assert (init + [last])[1..] == init[1..] + [last];
      FirstPositionPrefix(init[1..], last, x);
    }
  }

  /** `services.filter((service) => service.category === category)`. */
  function Section(services: seq<Service>, category: string): (r: seq<Service>)
    ensures forall s :: s in r <==> s in services && s.category == category
    ensures |r| <= |services|
  {
    if services == [] then []
    else if services[0].category == category then [services[0]] + Section(services[1..], category)
    else Section(services[1..], category)
  }

  /** A section keeps the original order: filtering distributes over
      concatenation. */
  lemma {:induction false} SectionAppend(xs: seq<Service>, ys: seq<Service>, category: string)
    ensures Section(xs + ys, category) == Section(xs, category) + Section(ys, category)
  {
    if xs != [] {
      assert (xs + ys)[1..] == xs[1..] + ys;
      SectionAppend(xs[1..], ys, category);
    } else {
      assert xs + ys == ys;
    }
  }

  /** The number of times `c` occurs in `cats`. */
  function Count(cats: seq<string>, c: string): (n: nat)
    ensures n == 0 <==> c !in cats
  {
    if cats == [] then 0 else (if cats[0] == c then 1 else 0) + Count(cats[1..], c)
  }

  /** The total number of service cards over the sections named by `cats`. */
  function CardCount(services: seq<Service>, cats: seq<string>): nat {
    if cats == [] then 0 else |Section(services, cats[0])| + CardCount(services, cats[1..])
  }

  lemma {:induction false} CountNoDuplicates(cats: seq<string>, c: string)
    requires NoDuplicates(cats) && c in cats
    ensures Count(cats, c) == 1
  {
    if cats[0] != c {
      CountNoDuplicates(cats[1..], c);
    } else {
      assert c !in cats[1..] by {
        forall k | 0 <= k < |cats| - 1 ensures cats[1..][k] != c {
          assert cats[1..][k] == cats[k + 1];
        }
      }
    }
  }

  lemma {:induction false} CardCountCons(s: Service, rest: seq<Service>, cats: seq<string>)
    ensures CardCount([s] + rest, cats) == Count(cats, s.category) + CardCount(rest, cats)
  {
    assert ([s] + rest)[1..] == rest;
    if cats != [] {
      CardCountCons(s, rest, cats[1..]);
    }
  }

  /** Given one section per category, each without repetition, every service
      lands in exactly one section: the cards add up to the services. */
  lemma {:induction false} CardCountIsServiceCount(services: seq<Service>, cats: seq<string>)
    requires NoDuplicates(cats)
    requires forall s :: s in services ==> s.category in cats
    ensures CardCount(services, cats) == |services|
  {
    if services == [] {
      CardCountEmpty(cats);
    } else {
      var s, rest := services[0], services[1..];
      assert services == [s] + rest;
      CardCountCons(s, rest, cats);
      CountNoDuplicates(cats, s.category);
      CardCountIsServiceCount(rest, cats);
    }
  }

  lemma {:induction false} CardCountEmpty(cats: seq<string>)
    ensures CardCount([], cats) == 0
  {
    if cats != [] {
      CardCountEmpty(cats[1..]);
    }
  }

  /** On the page as rendered: every fetched service is listed in exactly
      one section, the section of its own category. */
  lemma EverySectionOnce(services: seq<Service>)
    ensures CardCount(services, Categories(Some(services))) == |services|
    ensures forall s :: s in services ==> Count(Categories(Some(services)), s.category) == 1
  {
    var cats := Categories(Some(services));
    forall s | s in services ensures s.category in cats && Count(cats, s.category) == 1 {
      CountNoDuplicates(cats, s.category);
    }
    CardCountIsServiceCount(services, cats);
  }

  const BookPrefix: string := "/book?service="

  /** The "Book Now" link of a service card. */
  function BookLink(serviceId: string): (href: string)
    ensures StartsWith(href, BookPrefix) && href[|BookPrefix|..] == serviceId
  {
    BookPrefix + serviceId
  }

  datatype CategorySection = CategorySection(category: string, cards: seq<Service>)

  datatype ServicesView = ServicesLoading | ServicesList(sections: seq<CategorySection>)

  /** The page: a loading placeholder while the collection loads, otherwise
      one section per category, each listing that category's services. */
  function Page(isLoading: bool, services: Option<seq<Service>>): (v: ServicesView)
    ensures v.ServicesLoading? <==> isLoading
    ensures v.ServicesList? ==>
      |v.sections| == |Categories(services)| &&
      forall i :: 0 <= i < |v.sections| ==>
        v.sections[i].category == Categories(services)[i] &&
        (services.None? ==> v.sections[i].cards == []) &&
        (services.Some? ==> v.sections[i].cards == Section(services.value, Categories(services)[i]))
  {
    if isLoading then ServicesLoading
    else
      var cats := Categories(services);
      var all := if services.Some? then services.value else [];
      ServicesList(seq(|cats|, i requires 0 <= i < |cats| => CategorySection(cats[i], Section(all, cats[i]))))
  }
}
