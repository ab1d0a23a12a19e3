/** Budget helpers of the spend-tracking test scripts (BudgetUtils): the
    money amount of a budget, the ids of the Google services a budget can be
    limited to, and the filter that limits a budget to projects, services and
    one label. */
module Budget {
  import opened Common

  const TwoTo31 := 0x8000_0000
  const TwoTo32 := 0x1_0000_0000

  predicate IsInt32(x: int) {
    -TwoTo31 <= x < TwoTo31
  }

  predicate IsInt64(x: int) {
    -0x8000_0000_0000_0000 <= x < 0x8000_0000_0000_0000
  }

  /** Java `int` arithmetic: the result taken modulo 2^32 into the signed range. */
  function WrapInt32(x: int): (r: int)
    ensures IsInt32(r)
    ensures (r - x) % TwoTo32 == 0
  {
    (x + TwoTo31) % TwoTo32 - TwoTo31
  }

  /** A value in range is left as it is. */
  lemma WrapInt32InRange(x: int)
    ensures IsInt32(x) ==> WrapInt32(x) == x
  {
    if IsInt32(x) {
      assert 0 <= x + TwoTo31 < TwoTo32;
    }
  }

  /** com.google.type.Money: whole units, nano units, and a currency code. */
  datatype Money = Money(units: int, nanos: int, currencyCode: string)

  datatype BudgetAmount = BudgetAmount(specifiedAmount: Money)

  const NanosPerCent := 10000000

  /** getBudgetAmount(long dollars, int cents, currencyCode): `cents * 10000000`
      is computed in `int` arithmetic. */
  function GetBudgetAmount(dollars: int, cents: int, currencyCode: string): (r: BudgetAmount)
    requires IsInt64(dollars) && IsInt32(cents)
    ensures r.specifiedAmount.units == dollars
    ensures r.specifiedAmount.currencyCode == currencyCode
    ensures IsInt32(r.specifiedAmount.nanos)
    ensures (r.specifiedAmount.nanos - cents * NanosPerCent) % TwoTo32 == 0
    ensures -214 <= cents <= 214 ==> r.specifiedAmount.nanos == cents * NanosPerCent
  {
    WrapInt32InRange(cents * NanosPerCent);
    BudgetAmount(Money(dollars, WrapInt32(cents * NanosPerCent), currencyCode))
  }

  /** The product fits in an `int` exactly for -214..214 cents; 215 cents
      already wraps to a negative number of nanos. */
  lemma BudgetAmountRange(cents: int)
    ensures IsInt32(cents * NanosPerCent) <==> -214 <= cents <= 214
    ensures GetBudgetAmount(0, 215, "USD").specifiedAmount.nanos == 2150000000 - TwoTo32
  {
    if cents >= 215 {
      assert cents * NanosPerCent >= 215 * NanosPerCent;
    } else if cents <= -215 {
      assert cents * NanosPerCent <= -215 * NanosPerCent;
    }
  }

  /** The ServiceId enum: the Google Cloud services a budget can be limited to. */
  datatype ServiceId = CloudStorage | BigQuery | CloudFirestore {
    /** getValue(): the service's billing id. */
    function Value(): string {
      match this
      case CloudStorage => "95FF-2EF5-5EA1"
      case BigQuery => "24E6-581D-38E5"
      case CloudFirestore => "D97E-AB26-5D95"
    }
  }

  /** The three services have three different ids. */
  lemma ServiceIdsDistinct(a: ServiceId, b: ServiceId)
    ensures a.Value() == b.Value() <==> a == b
  {
  }

  /** The budget filter; an empty field is one the builder left unset. */
  datatype Filter = Filter(projects: seq<string>, services: seq<string>, labels: map<string, seq<string>>)

  const EmptyFilter := Filter([], [], map[])

  const ProjectsPrefix := "projects/"
  const ServicesPrefix := "services/"
  const OneLabelMessage := "Only one label key/value pair allowed."

  /** Each element of `xs` with `prefix` in front, in order. */
  predicate PrefixedEach(prefix: string, xs: seq<string>, ys: seq<string>) {
    |ys| == |xs| && forall i :: 0 <= i < |xs| ==> ys[i] == prefix + xs[i]
  }

  /** Prefixing is undone by dropping the prefix, so the prefixed list
      determines the list it was built from. */
  lemma PrefixedEachInverse(prefix: string, xs: seq<string>, ys: seq<string>)
    requires PrefixedEach(prefix, xs, ys)
    ensures forall i :: 0 <= i < |ys| ==> |prefix| <= |ys[i]| && ys[i][..|prefix|] == prefix && ys[i][|prefix|..] == xs[i]
  {
    forall i | 0 <= i < |ys|
      ensures |prefix| <= |ys[i]| && ys[i][..|prefix|] == prefix && ys[i][|prefix|..] == xs[i]
    {
      assert ys[i] == prefix + xs[i];
    }
  }

  /** The loop that puts "projects/" in front of each project id. */
  method ConvertProjectIds(projectIds: seq<string>) returns (converted: seq<string>)
    ensures PrefixedEach(ProjectsPrefix, projectIds, converted)
  {
    converted := [];
    var i := 0;
    while i < |projectIds|
      invariant 0 <= i <= |projectIds|
      invariant PrefixedEach(ProjectsPrefix, projectIds[..i], converted)
    {
      converted := converted + [ProjectsPrefix + projectIds[i]];
      i := i + 1;
    }
    assert projectIds[..i] == projectIds;
  }

  /** The billing ids of `serviceIds`, in order. */
  function Values(serviceIds: seq<ServiceId>): (r: seq<string>)
    ensures |r| == |serviceIds|
    ensures forall i :: 0 <= i < |serviceIds| ==> r[i] == serviceIds[i].Value()
  {
    seq(|serviceIds|, i requires 0 <= i < |serviceIds| => serviceIds[i].Value())
  }

  /** The loop that puts "services/" in front of each service's id. */
  method ConvertServiceIds(serviceIds: seq<ServiceId>) returns (converted: seq<string>)
    ensures PrefixedEach(ServicesPrefix, Values(serviceIds), converted)
  {
    converted := [];
    var i := 0;
    while i < |serviceIds|
      invariant 0 <= i <= |serviceIds|
      invariant PrefixedEach(ServicesPrefix, Values(serviceIds)[..i], converted)
    {
      converted := converted + [ServicesPrefix + serviceIds[i].Value()];
      i := i + 1;
    }
    assert Values(serviceIds)[..i] == Values(serviceIds);
  }

  /** The loop that wraps each label value in a one-element list. */
  method ConvertLabels(labels: map<string, string>) returns (converted: map<string, seq<string>>)
    ensures converted.Keys == labels.Keys
    ensures forall k :: k in labels ==> converted[k] == [labels[k]]
  {
    converted := map[];
    var remaining := labels.Keys;
    while remaining != {}
      invariant remaining <= labels.Keys
      invariant converted.Keys == labels.Keys - remaining
      invariant forall k :: k in converted ==> converted[k] == [labels[k]]
      decreases remaining
    {
      var key :| key in remaining;
      converted := converted[key := [labels[key]]];
      remaining := remaining - {key};
    }
  }

  /** getBudgetFilter: a null or empty argument leaves its field unset;
      more than one label is refused. */
  method GetBudgetFilter(projectIds: Option<seq<string>>, serviceIds: Option<seq<ServiceId>>,
                         labels: Option<map<string, string>>) returns (r: Result<Filter, string>)
    ensures r.Err? <==> labels.Some? && |labels.value| > 1
    ensures r.Err? ==> r.error == OneLabelMessage
    ensures r.Ok? ==> PrefixedEach(ProjectsPrefix, projectIds.GetOr([]), r.value.projects)
    ensures r.Ok? ==> PrefixedEach(ServicesPrefix, Values(serviceIds.GetOr([])), r.value.services)
    ensures r.Ok? ==> r.value.labels.Keys == labels.GetOr(map[]).Keys
    ensures r.Ok? ==> forall k :: k in r.value.labels ==> r.value.labels[k] == [labels.value[k]]
  {
    var filter := EmptyFilter;
    if projectIds.Some? && |projectIds.value| > 0 {
      var converted := ConvertProjectIds(projectIds.value);
      filter := filter.(projects := converted);
    }
    if serviceIds.Some? && |serviceIds.value| > 0 {
      var converted := ConvertServiceIds(serviceIds.value);
      filter := filter.(services := converted);
    }
    if labels.Some? && |labels.value| > 0 {
      if |labels.value| > 1 {
        return Err(OneLabelMessage);
      }
      var converted := ConvertLabels(labels.value);
      filter := filter.(labels := converted);
    }
    return Ok(filter);
  }
}
