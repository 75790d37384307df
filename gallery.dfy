/** The gallery page of app/page.tsx: the media list is split into pictures
    and films on one side and other files on the other, and the pictures
    and films are bucketed under a day key. Calendar days are integers and
    the locale's day-month label is an opaque function. */
module Gallery {
  import opened Strings

  /** A media record as the server lists it. */
  datatype Media = Media(id: string, filename: string, mimeType: string, size: nat, createdAt: int)

  /** The clock and locale `groupByDate` consults: today's day number, the
      local calendar day of a timestamp, and the "day month" label of a day. */
  datatype Calendar = Calendar(today: int, dayOf: int -> int, dayMonth: int -> string)

  const TodayKey: string := "Сегодня"
  const YesterdayKey: string := "Вчера"

  /** The locale label is never one of the two fixed keys. */
  ghost predicate LabelsAreDates(cal: Calendar) {
    forall d :: cal.dayMonth(d) != TodayKey && cal.dayMonth(d) != YesterdayKey
  }

  /** The items among the first n of xs whose test gives outcome, in order. */
  function Where<T>(xs: seq<T>, n: nat, test: T -> bool, outcome: bool): (r: seq<T>)
    requires n <= |xs|
  {
    if n == 0 then []
    else Where(xs, n - 1, test, outcome) + if test(xs[n - 1]) == outcome then [xs[n - 1]] else []
  }

  /** The positions among the first n of xs whose test gives outcome, ascending. */
  function WhereIndices<T>(xs: seq<T>, n: nat, test: T -> bool, outcome: bool): (r: seq<nat>)
    requires n <= |xs|
  {
    if n == 0 then []
    else WhereIndices(xs, n - 1, test, outcome) + if test(xs[n - 1]) == outcome then [n - 1] else []
  }

  /** The t-th item of Where is the item at the t-th listed position. */
  lemma {:induction false} WhereIndicesMatch<T>(xs: seq<T>, n: nat, test: T -> bool, outcome: bool)
    requires n <= |xs|
    ensures |WhereIndices(xs, n, test, outcome)| == |Where(xs, n, test, outcome)|
    ensures forall t :: 0 <= t < |WhereIndices(xs, n, test, outcome)| ==>
              WhereIndices(xs, n, test, outcome)[t] < n
              && Where(xs, n, test, outcome)[t] == xs[WhereIndices(xs, n, test, outcome)[t]]
    decreases n
  {
    if n > 0 {
      WhereIndicesMatch(xs, n - 1, test, outcome);
    }
  }

  /** The listed positions ascend and are exactly those whose test gives outcome. */
  lemma {:induction false} WhereIndicesExact<T>(xs: seq<T>, n: nat, test: T -> bool, outcome: bool)
    requires n <= |xs|
    ensures forall t :: 0 <= t < |WhereIndices(xs, n, test, outcome)| ==> WhereIndices(xs, n, test, outcome)[t] < n
    ensures forall t, u :: 0 <= t < u < |WhereIndices(xs, n, test, outcome)| ==>
              WhereIndices(xs, n, test, outcome)[t] < WhereIndices(xs, n, test, outcome)[u]
    ensures forall j :: 0 <= j < n ==> (j in WhereIndices(xs, n, test, outcome) <==> test(xs[j]) == outcome)
    decreases n
  {
    if n > 0 {
      WhereIndicesExact(xs, n - 1, test, outcome);
      var before := WhereIndices(xs, n - 1, test, outcome);
      assert n - 1 !in before;
    }
  }

  /** Where is the order-preserving filter: its t-th item is the item at the
      t-th selected position, the positions ascend, and the selected
      positions are exactly those whose test gives outcome. */
  lemma {:induction false} WhereIsOrderedFilter<T>(xs: seq<T>, n: nat, test: T -> bool, outcome: bool)
    requires n <= |xs|
    ensures |WhereIndices(xs, n, test, outcome)| == |Where(xs, n, test, outcome)|
    ensures forall t :: 0 <= t < |WhereIndices(xs, n, test, outcome)| ==>
              WhereIndices(xs, n, test, outcome)[t] < n
              && Where(xs, n, test, outcome)[t] == xs[WhereIndices(xs, n, test, outcome)[t]]
    ensures forall t, u :: 0 <= t < u < |WhereIndices(xs, n, test, outcome)| ==>
              WhereIndices(xs, n, test, outcome)[t] < WhereIndices(xs, n, test, outcome)[u]
    ensures forall j :: 0 <= j < n ==> (j in WhereIndices(xs, n, test, outcome) <==> test(xs[j]) == outcome)
  {
    WhereIndicesMatch(xs, n, test, outcome);
    WhereIndicesExact(xs, n, test, outcome);
  }

  /** Every item Where keeps comes from the first n and gives outcome. */
  lemma {:induction false} WhereSound<T>(xs: seq<T>, n: nat, test: T -> bool, outcome: bool)
    requires n <= |xs|
    ensures forall x :: x in Where(xs, n, test, outcome) ==> x in xs[..n] && test(x) == outcome
    decreases n
  {
    if n > 0 {
      WhereSound(xs, n - 1, test, outcome);
      assert xs[..n] == xs[..n - 1] + [xs[n - 1]];
    }
  }

  /** One more item adds itself to the bag of the filter it passes. */
  lemma WhereGrows<T>(xs: seq<T>, n: nat, test: T -> bool, outcome: bool)
    requires 0 < n <= |xs|
    ensures test(xs[n - 1]) == outcome ==>
              multiset(Where(xs, n, test, outcome)) == multiset(Where(xs, n - 1, test, outcome)) + multiset{xs[n - 1]}
    ensures test(xs[n - 1]) != outcome ==>
              multiset(Where(xs, n, test, outcome)) == multiset(Where(xs, n - 1, test, outcome))
  {
  }

  lemma PrefixBag<T>(xs: seq<T>, n: nat)
    requires 0 < n <= |xs|
    ensures multiset(xs[..n]) == multiset(xs[..n - 1]) + multiset{xs[n - 1]}
  {
    assert xs[..n] == xs[..n - 1] + [xs[n - 1]];
  }

  lemma BagShift<T>(a: multiset<T>, b: multiset<T>, x: T)
    ensures (a + multiset{x}) + b == (a + b) + multiset{x}
    ensures a + (b + multiset{x}) == (a + b) + multiset{x}
  {
  }

  /** The two outcomes of a test share the first n items out between them. */
  lemma {:induction false} WhereSizes<T>(xs: seq<T>, n: nat, test: T -> bool)
    requires n <= |xs|
    ensures |Where(xs, n, test, true)| + |Where(xs, n, test, false)| == n
    decreases n
  {
    if n > 0 {
      WhereSizes(xs, n - 1, test);
    }
  }

  /** The two outcomes of a test split the bag of the first n items. */
  lemma {:induction false} WhereSplits<T>(xs: seq<T>, n: nat, test: T -> bool)
    requires n <= |xs|
    ensures multiset(Where(xs, n, test, true)) + multiset(Where(xs, n, test, false)) == multiset(xs[..n])
    decreases n
  {
    if n > 0 {
      var x := xs[n - 1];
      WhereSplits(xs, n - 1, test);
      PrefixBag(xs, n);
      WhereGrows(xs, n, test, true);
      WhereGrows(xs, n, test, false);
      var yes, no := multiset(Where(xs, n - 1, test, true)), multiset(Where(xs, n - 1, test, false));
      BagShift(yes, no, x);
      assert (yes + no) + multiset{x} == multiset(xs[..n]);
      if test(x) {
        assert multiset(Where(xs, n, test, true)) + multiset(Where(xs, n, test, false)) == (yes + multiset{x}) + no;
      } else {
        assert multiset(Where(xs, n, test, true)) + multiset(Where(xs, n, test, false)) == yes + (no + multiset{x});
      }
    } else {
      assert xs[..0] == [];
    }
  }

  /** The test of the split: a picture or a film. */
  predicate IsVisual(m: Media) {
    StartsWith(m.mimeType, "image/") || StartsWith(m.mimeType, "video/")
  }

  /** The split of the page's `useMemo`: every media is pushed onto
      `mediaItems` or `fileItems`, in list order. */
  method Partition(medias: seq<Media>) returns (mediaItems: seq<Media>, fileItems: seq<Media>)
    ensures mediaItems == Where(medias, |medias|, IsVisual, true)
    ensures fileItems == Where(medias, |medias|, IsVisual, false)
  {
    mediaItems, fileItems := [], [];
    var i := 0;
    while i < |medias|
      invariant 0 <= i <= |medias|
      invariant mediaItems == Where(medias, i, IsVisual, true)
      invariant fileItems == Where(medias, i, IsVisual, false)
    {
      var m := medias[i];
      if StartsWith(m.mimeType, "image/") || StartsWith(m.mimeType, "video/") {
        mediaItems := mediaItems + [m];
      } else {
        fileItems := fileItems + [m];
      }
      i := i + 1;
    }
  }

  /** Every media lands in exactly one of the two lists, and the lists'
      lengths add up to the input's. */
  lemma PartitionIsExact(medias: seq<Media>)
    ensures |Where(medias, |medias|, IsVisual, true)| + |Where(medias, |medias|, IsVisual, false)| == |medias|
    ensures multiset(Where(medias, |medias|, IsVisual, true)) + multiset(Where(medias, |medias|, IsVisual, false))
            == multiset(medias)
    ensures forall m :: m in Where(medias, |medias|, IsVisual, true) ==> IsVisual(m)
    ensures forall m :: m in Where(medias, |medias|, IsVisual, false) ==> !IsVisual(m)
  {
    WhereSizes(medias, |medias|, IsVisual);
    WhereSplits(medias, |medias|, IsVisual);
    assert medias[..|medias|] == medias;
    WhereIsOrderedFilter(medias, |medias|, IsVisual, true);
    WhereIsOrderedFilter(medias, |medias|, IsVisual, false);
  }

  /** The bucket key of one media: one of the two fixed words or its day's
      label, with today and the day before always under the fixed words. */
  function DateKey(cal: Calendar, m: Media): (key: string)
    ensures cal.dayOf(m.createdAt) == cal.today ==> key == TodayKey
    ensures cal.dayOf(m.createdAt) == cal.today - 1 ==> key == YesterdayKey
  {
    var day := cal.dayOf(m.createdAt);
    if day == cal.today then TodayKey
    else if day == cal.today - 1 then YesterdayKey
    else cal.dayMonth(day)
  }

  /** "Сегодня" exactly for today, "Вчера" exactly for the day before, and
      the day's label for any other day. */
  lemma DateKeyCases(cal: Calendar, m: Media)
    requires LabelsAreDates(cal)
    ensures DateKey(cal, m) == TodayKey <==> cal.dayOf(m.createdAt) == cal.today
    ensures DateKey(cal, m) == YesterdayKey <==> cal.dayOf(m.createdAt) == cal.today - 1
    ensures cal.dayOf(m.createdAt) != cal.today && cal.dayOf(m.createdAt) != cal.today - 1 ==>
              DateKey(cal, m) == cal.dayMonth(cal.dayOf(m.createdAt))
  {
  }

  /** The selector of the bucket with the given key. */
  function HasKey(cal: Calendar, key: string): Media -> bool {
    m => DateKey(cal, m) == key
  }

  /** The keys among the first n media, in order of first occurrence: the
      order in which `groups` gains its properties. */
  function KeyOrder(medias: seq<Media>, n: nat, cal: Calendar): seq<string>
    requires n <= |medias|
  {
    if n == 0 then []
    else
      var keys := KeyOrder(medias, n - 1, cal);
      var key := DateKey(cal, medias[n - 1]);
      if key in keys then keys else keys + [key]
  }

  /** The record `groupByDate` has built after the first n media. */
  function Grouped(medias: seq<Media>, n: nat, cal: Calendar): map<string, seq<Media>>
    requires n <= |medias|
  {
    if n == 0 then map[]
    else
      var groups := Grouped(medias, n - 1, cal);
      var key := DateKey(cal, medias[n - 1]);
      var bucket := if key in groups then groups[key] else [];
      groups[key := bucket + [medias[n - 1]]]
  }

  /** `groupByDate`: `groups` keyed by day, with `keys` the insertion order
      of its properties, which `Object.entries` follows since no key looks
      like an array index. */
  method GroupByDate(medias: seq<Media>, cal: Calendar) returns (groups: map<string, seq<Media>>, keys: seq<string>)
    ensures keys == KeyOrder(medias, |medias|, cal)
    ensures forall key :: key in groups <==> key in keys
    ensures forall key :: key in groups ==> groups[key] == Where(medias, |medias|, HasKey(cal, key), true)
  {
    groups, keys := map[], [];
    var i := 0;
    while i < |medias|
      invariant 0 <= i <= |medias|
      invariant keys == KeyOrder(medias, i, cal)
      invariant groups == Grouped(medias, i, cal)
    {
      var media := medias[i];
      var key := DateKey(cal, media);
      GroupedAreBuckets(medias, i, cal);
      if key !in groups {
        groups := groups[key := []];
        keys := keys + [key];
      }
      groups := groups[key := groups[key] + [media]];
      i := i + 1;
    }
    GroupedAreBuckets(medias, |medias|, cal);
  }

  /** The record holds one property per key met, and the property of a key
      lists the media with that key in input order. */
  lemma {:induction false} GroupedAreBuckets(medias: seq<Media>, n: nat, cal: Calendar)
    requires n <= |medias|
    ensures forall key :: key in Grouped(medias, n, cal) <==> key in KeyOrder(medias, n, cal)
    ensures forall key :: key in Grouped(medias, n, cal) ==>
              Grouped(medias, n, cal)[key] == Where(medias, n, HasKey(cal, key), true)
    decreases n
  {
    if n > 0 {
      GroupedAreBuckets(medias, n - 1, cal);
      KeyOrderHasKey(medias, n - 1, cal, DateKey(cal, medias[n - 1]));
      WhereStep(medias, n, cal);
    }
  }

  /** The keys are distinct. */
  lemma {:induction false} KeyOrderDistinct(medias: seq<Media>, n: nat, cal: Calendar)
    requires n <= |medias|
    ensures forall a, b :: 0 <= a < b < |KeyOrder(medias, n, cal)| ==>
              KeyOrder(medias, n, cal)[a] != KeyOrder(medias, n, cal)[b]
    decreases n
  {
    if n > 0 {
      KeyOrderDistinct(medias, n - 1, cal);
      KeyOrderHasKey(medias, n - 1, cal, DateKey(cal, medias[n - 1]));
    }
  }

  /** A key is listed exactly when some media has it, so no group is empty. */
  lemma {:induction false} KeyOrderHasKey(medias: seq<Media>, n: nat, cal: Calendar, key: string)
    requires n <= |medias|
    ensures key in KeyOrder(medias, n, cal) <==> |Where(medias, n, HasKey(cal, key), true)| > 0
    decreases n
  {
    if n > 0 {
      KeyOrderHasKey(medias, n - 1, cal, key);
      assert HasKey(cal, key)(medias[n - 1]) == (key == DateKey(cal, medias[n - 1]));
    }
  }

  /** Each media is in the group of its own key and in no other. */
  lemma OneGroupEach(medias: seq<Media>, cal: Calendar, j: int, key: string)
    requires 0 <= j < |medias|
    ensures medias[j] in Where(medias, |medias|, HasKey(cal, key), true) <==> key == DateKey(cal, medias[j])
  {
    var keep := HasKey(cal, key);
    WhereIsOrderedFilter(medias, |medias|, keep, true);
    var r := Where(medias, |medias|, keep, true);
    forall x | x in r
      ensures DateKey(cal, x) == key
    {
      var t :| 0 <= t < |r| && r[t] == x;
      assert keep(r[t]);
    }
    if key == DateKey(cal, medias[j]) {
      var idx := WhereIndices(medias, |medias|, keep, true);
      var t :| 0 <= t < |idx| && idx[t] == j;
      assert r[t] == medias[j];
    }
  }

  /** One more media joins the bucket of its own key and leaves every other
      bucket as it was. */
  lemma WhereStep(medias: seq<Media>, n: nat, cal: Calendar)
    requires 0 < n <= |medias|
    ensures forall key ::
              Where(medias, n, HasKey(cal, key), true)
              == Where(medias, n - 1, HasKey(cal, key), true)
                 + if key == DateKey(cal, medias[n - 1]) then [medias[n - 1]] else []
  {
    forall key
      ensures Where(medias, n, HasKey(cal, key), true)
              == Where(medias, n - 1, HasKey(cal, key), true)
                 + if key == DateKey(cal, medias[n - 1]) then [medias[n - 1]] else []
    {
      assert HasKey(cal, key)(medias[n - 1]) == (key == DateKey(cal, medias[n - 1]));
    }
  }

  /** The total size of the groups listed in keys. */
  function SizeOf(medias: seq<Media>, n: nat, cal: Calendar, keys: seq<string>): nat
    requires n <= |medias|
  {
    if keys == [] then 0
    else SizeOf(medias, n, cal, keys[..|keys| - 1]) + |Where(medias, n, HasKey(cal, keys[|keys| - 1]), true)|
  }

  /** One more media adds one to the size of every listing of its key. */
  lemma {:induction false} SizeOfGrows(medias: seq<Media>, n: nat, cal: Calendar, keys: seq<string>)
    requires 0 < n <= |medias|
    ensures SizeOf(medias, n, cal, keys)
            == SizeOf(medias, n - 1, cal, keys) + multiset(keys)[DateKey(cal, medias[n - 1])]
    decreases |keys|
  {
    if keys != [] {
      var init := keys[..|keys| - 1];
      SizeOfGrows(medias, n, cal, init);
      assert keys == init + [keys[|keys| - 1]];
    }
  }

  /** The group sizes add up to the number of media grouped. */
  lemma {:induction false} GroupSizesSum(medias: seq<Media>, n: nat, cal: Calendar)
    requires n <= |medias|
    ensures SizeOf(medias, n, cal, KeyOrder(medias, n, cal)) == n
    decreases n
  {
    if n > 0 {
      GroupSizesSum(medias, n - 1, cal);
      if DateKey(cal, medias[n - 1]) in KeyOrder(medias, n - 1, cal) {
        KnownKeyStep(medias, n, cal);
      } else {
        NewKeyStep(medias, n, cal);
      }
    }
  }

  /** A media whose key is already listed adds one to the listed groups. */
  lemma KnownKeyStep(medias: seq<Media>, n: nat, cal: Calendar)
    requires 0 < n <= |medias|
    requires DateKey(cal, medias[n - 1]) in KeyOrder(medias, n - 1, cal)
    ensures SizeOf(medias, n, cal, KeyOrder(medias, n, cal))
            == SizeOf(medias, n - 1, cal, KeyOrder(medias, n - 1, cal)) + 1
  {
    var keys := KeyOrder(medias, n - 1, cal);
    KeyOrderKept(medias, n, cal);
    KeyListedOnce(medias, n - 1, cal, DateKey(cal, medias[n - 1]));
    ListedKeyGrows(medias, n, cal, keys);
  }

  /** One more media adds one to a listing that holds its key once. */
  lemma ListedKeyGrows(medias: seq<Media>, n: nat, cal: Calendar, keys: seq<string>)
    requires 0 < n <= |medias|
    requires multiset(keys)[DateKey(cal, medias[n - 1])] == 1
    ensures SizeOf(medias, n, cal, keys) == SizeOf(medias, n - 1, cal, keys) + 1
  {
    SizeOfGrows(medias, n, cal, keys);
  }

  /** A media whose key is already listed leaves the key order as it is. */
  lemma KeyOrderKept(medias: seq<Media>, n: nat, cal: Calendar)
    requires 0 < n <= |medias|
    requires DateKey(cal, medias[n - 1]) in KeyOrder(medias, n - 1, cal)
    ensures KeyOrder(medias, n, cal) == KeyOrder(medias, n - 1, cal)
  {
  }

  /** A media with a new key adds one to the listed groups and lists a
      group of one. */
  lemma NewKeyStep(medias: seq<Media>, n: nat, cal: Calendar)
    requires 0 < n <= |medias|
    requires DateKey(cal, medias[n - 1]) !in KeyOrder(medias, n - 1, cal)
    ensures SizeOf(medias, n, cal, KeyOrder(medias, n, cal))
            == SizeOf(medias, n - 1, cal, KeyOrder(medias, n - 1, cal)) + 1
  {
    var keys := KeyOrder(medias, n - 1, cal);
    var key := DateKey(cal, medias[n - 1]);
    KeyOrderHasKey(medias, n - 1, cal, key);
    NewKeySize(medias, n, cal, keys);
    KeyListedOnce(medias, n - 1, cal, key);
    SizeOfGrows(medias, n, cal, keys);
  }

  /** A key met for the first time brings a group of one. */
  lemma NewKeySize(medias: seq<Media>, n: nat, cal: Calendar, keys: seq<string>)
    requires 0 < n <= |medias|
    requires |Where(medias, n - 1, HasKey(cal, DateKey(cal, medias[n - 1])), true)| == 0
    ensures SizeOf(medias, n, cal, keys + [DateKey(cal, medias[n - 1])]) == SizeOf(medias, n, cal, keys) + 1
  {
    var key := DateKey(cal, medias[n - 1]);
    var grown := keys + [key];
    assert grown[..|grown| - 1] == keys;
    WhereStep(medias, n, cal);
  }

  /** A key is listed once if at all. */
  lemma {:induction false} KeyListedOnce(medias: seq<Media>, n: nat, cal: Calendar, key: string)
    requires n <= |medias|
    ensures multiset(KeyOrder(medias, n, cal))[key] == if key in KeyOrder(medias, n, cal) then 1 else 0
  {
    KeyOrderDistinct(medias, n, cal);
    DistinctCount(KeyOrder(medias, n, cal), key);
  }

  /** A key occurs once in a list of distinct keys that holds it. */
  lemma {:induction false} DistinctCount(keys: seq<string>, key: string)
    requires forall a, b :: 0 <= a < b < |keys| ==> keys[a] != keys[b]
    ensures multiset(keys)[key] == if key in keys then 1 else 0
    decreases |keys|
  {
    if keys != [] {
      var init := keys[..|keys| - 1];
      DistinctCount(init, key);
      assert keys == init + [keys[|keys| - 1]];
    }
  }

  /** The page groups `mediaItems`: every grouped media is a picture or a
      film listed by the server, under its own key. */
  lemma GroupedMediaAreVisual(medias: seq<Media>, cal: Calendar, key: string)
    ensures var visuals := Where(medias, |medias|, IsVisual, true);
            forall m :: m in Where(visuals, |visuals|, HasKey(cal, key), true) ==>
              m in medias && IsVisual(m) && DateKey(cal, m) == key
  {
    var visuals := Where(medias, |medias|, IsVisual, true);
    WhereSound(medias, |medias|, IsVisual, true);
    WhereSound(visuals, |visuals|, HasKey(cal, key), true);
    assert medias[..|medias|] == medias;
    assert visuals[..|visuals|] == visuals;
  }
}
