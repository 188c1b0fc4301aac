/** The listing side of the SageMaker model registry client, `ModelRegistry` in
    batch_pipeline/infra/model_registry.py and deployment_pipeline/infra/model_registry.py
    (the two copies agree line for line on everything in this module).

    The SageMaker client is replaced by an in-memory stand-in: the replies that
    successive `list_model_packages` calls receive, in call order. */
module ModelRegistry {
  import opened Common

  type Version = nat

  /** One entry of `ModelPackageSummaryList`. */
  datatype ModelPackage = ModelPackage(
    groupName: string,
    version: Version,
    arn: string,
    creationTime: int,
    approvalStatus: string)

  /** The reply to one `list_model_packages` call: a page of summaries with an
      optional `NextToken`, or the client error the call raised. */
  datatype ListReply =
    | Page(summaries: seq<ModelPackage>, nextToken: Option<string>)
    | Fault(error: ClientError)

  /** The arguments of one `list_model_packages` call. `creationTimeAfter` and
      `nextToken` are `None` when the key is absent from the argument dict. */
  datatype ListRequest = ListRequest(
    groupName: string,
    approvalStatus: string,
    sortBy: string,
    maxResults: int,
    creationTimeAfter: Option<int>,
    nextToken: Option<string>)

  /** What the registry raises: the two "not found" exceptions it raises itself,
      and a client error re-raised as a generic exception with the same message. */
  datatype RegistryError =
    | NoApprovedPackages(groupName: string)
    | NoApprovedVersions(groupName: string, versions: seq<Version>)
    | ServiceError(message: string)

  /** The message of the exception raised for each error. */
  function ErrorMessage(e: RegistryError): string
  {
    match e
    case NoApprovedPackages(g) => "No approved packages found for: " + g
    case NoApprovedVersions(g, vs) => "No approved packages found for: " + g + " and versions: " + ListString(vs)
    case ServiceError(m) => m
  }

  /** A well-formed listing: every reply but the last is a page that carries a
      `NextToken` (so the client asks again), and the last reply either ends the
      listing or is an error. */
  ghost predicate ValidListing(pages: seq<ListReply>) {
    && |pages| > 0
    && (forall i :: 0 <= i < |pages| - 1 ==> pages[i].Page? && pages[i].nextToken.Some?)
    && (pages[|pages| - 1].Page? ==> pages[|pages| - 1].nextToken.None?)
  }

  function Summaries(reply: ListReply): seq<ModelPackage> {
    if reply.Page? then reply.summaries else []
  }

  function TokenOf(reply: ListReply): Option<string> {
    if reply.Page? then reply.nextToken else None
  }

  /** All summaries of the given replies, in page order. */
  function Packages(pages: seq<ListReply>): seq<ModelPackage>
    decreases |pages|
  {
    if pages == [] then []
    else Packages(pages[..|pages| - 1]) + Summaries(pages[|pages| - 1])
  }

  lemma {:induction false} PackagesAppend(a: seq<ListReply>, b: seq<ListReply>)
    ensures Packages(a + b) == Packages(a) + Packages(b)
    decreases |b|
  {
    if b != [] {
      assert (a + b)[..|a + b| - 1] == a + b[..|b| - 1];
      PackagesAppend(a, b[..|b| - 1]);
    } else {
      assert a + b == a;
    }
  }

  lemma PackagesSnoc(pages: seq<ListReply>, r: ListReply)
    ensures Packages(pages + [r]) == Packages(pages) + Summaries(r)
  {
    assert (pages + [r])[..|pages|] == pages;
  }

  lemma PackagesSplit(pages: seq<ListReply>, k: nat)
    requires k <= |pages|
    ensures Packages(pages) == Packages(pages[..k]) + Packages(pages[k..])
  {
    PackagesAppend(pages[..k], pages[k..]);
    assert pages[..k] + pages[k..] == pages;
  }

  lemma PackagesStep(pages: seq<ListReply>, i: nat)
    requires i < |pages|
    ensures Packages(pages[..i + 1]) == Packages(pages[..i]) + Summaries(pages[i])
  {
    assert pages[..i + 1][..i] == pages[..i];
  }

  /** The number of calls a paging loop has made when it stops, given for
      each call whether the loop stops after it, and that it did not stop
      before call `i`. The last call always stops. */
  function FirstStop(stops: seq<bool>, i: nat): (k: nat)
    requires i < |stops| && stops[|stops| - 1]
    ensures i < k <= |stops| && stops[k - 1]
    ensures forall j :: i <= j < k - 1 ==> !stops[j]
    decreases |stops| - i
  {
    if stops[i] then i + 1 else FirstStop(stops, i + 1)
  }

  /** The calls a paginating loop makes when it fetches `k` pages: the first
      request, then each time the previous request with `NextToken` replaced by
      the token of the page just received. */
  function Requests(first: ListRequest, pages: seq<ListReply>, k: nat): (r: seq<ListRequest>)
    requires k <= |pages|
    ensures |r| == k
    ensures k > 0 ==> r[0] == first
    ensures forall j :: 0 < j < k ==> r[j] == r[j - 1].(nextToken := TokenOf(pages[j - 1]))
  {
    seq(k, j requires 0 <= j < k => if j == 0 then first else first.(nextToken := TokenOf(pages[j - 1])))
  }

  lemma RequestsNext(first: ListRequest, pages: seq<ListReply>, k: nat)
    requires 1 <= k < |pages|
    ensures Requests(first, pages, k + 1) == Requests(first, pages, k) + [first.(nextToken := TokenOf(pages[k - 1]))]
  {
    var a := Requests(first, pages, k + 1);
    var b := Requests(first, pages, k) + [first.(nextToken := TokenOf(pages[k - 1]))];
    assert forall j | 0 <= j < k + 1 :: a[j] == b[j];
  }

  // ---------------------------------------------------------------------------
  // select_versioned_packages

  /** `[p for p in packages if p["ModelPackageVersion"] == version]`. */
  function Matching(packages: seq<ModelPackage>, version: Version): seq<ModelPackage>
    decreases |packages|
  {
    if packages == [] then []
    else (if packages[0].version == version then [packages[0]] else []) + Matching(packages[1..], version)
  }

  /** The filter `select_versioned_packages` computes: for each requested
      version in order, the packages of that version in input order. */
  function Selected(packages: seq<ModelPackage>, versions: seq<Version>): seq<ModelPackage>
    decreases |versions|
  {
    if versions == [] then []
    else Selected(packages, versions[..|versions| - 1]) + Matching(packages, versions[|versions| - 1])
  }

  method SelectVersionedPackages(packages: seq<ModelPackage>, versions: seq<Version>)
    returns (filtered: seq<ModelPackage>)
    ensures filtered == Selected(packages, versions)
  {
    filtered := [];
    for i := 0 to |versions|
      invariant filtered == Selected(packages, versions[..i])
    {
      assert versions[..i + 1][..i] == versions[..i];
      filtered := filtered + Matching(packages, versions[i]);
    }
    assert versions[..|versions|] == versions;
  }

  lemma {:induction false} MatchingMembers(packages: seq<ModelPackage>, version: Version, p: ModelPackage)
    ensures p in Matching(packages, version) <==> p in packages && p.version == version
    decreases |packages|
  {
    if packages != [] {
      MatchingMembers(packages[1..], version, p);
      assert packages == [packages[0]] + packages[1..];
    }
  }

  lemma {:induction false} MatchingAppend(a: seq<ModelPackage>, b: seq<ModelPackage>, version: Version)
    ensures Matching(a + b, version) == Matching(a, version) + Matching(b, version)
    decreases |a|
  {
    if a == [] {
      assert a + b == b;
    } else {
      var head := if a[0].version == version then [a[0]] else [];
      assert (a + b)[0] == a[0] && (a + b)[1..] == a[1..] + b;
      assert Matching(a + b, version) == head + Matching(a[1..] + b, version);
      MatchingAppend(a[1..], b, version);
      assert Matching(a, version) == head + Matching(a[1..], version);
    }
  }

  lemma {:induction false} MatchingTwice(packages: seq<ModelPackage>, w: Version, v: Version)
    ensures Matching(Matching(packages, w), v) == if w == v then Matching(packages, v) else []
    decreases |packages|
  {
    if packages != [] {
      var head := if packages[0].version == w then [packages[0]] else [];
      MatchingAppend(head, Matching(packages[1..], w), v);
      MatchingTwice(packages[1..], w, v);
      if packages[0].version == w {
        assert Matching(head, v) == (if w == v then [packages[0]] else []) + Matching([], v);
      }
    }
  }

  /** Elements of the filter are exactly the packages whose version was asked for. */
  lemma {:induction false} SelectedMembers(packages: seq<ModelPackage>, versions: seq<Version>, p: ModelPackage)
    ensures p in Selected(packages, versions) <==> p in packages && p.version in versions
    decreases |versions|
  {
    if versions != [] {
      var n := |versions| - 1;
      SelectedMembers(packages, versions[..n], p);
      MatchingMembers(packages, versions[n], p);
      assert versions == versions[..n] + [versions[n]];
    }
  }

  lemma {:induction false} SelectedLengthAppend(a: seq<ModelPackage>, b: seq<ModelPackage>, versions: seq<Version>)
    ensures |Selected(a + b, versions)| == |Selected(a, versions)| + |Selected(b, versions)|
    decreases |versions|
  {
    if versions != [] {
      var n := |versions| - 1;
      SelectedLengthAppend(a, b, versions[..n]);
      MatchingAppend(a, b, versions[n]);
    }
  }

  ghost predicate NoDup(vs: seq<Version>) {
    forall i, j :: 0 <= i < j < |vs| ==> vs[i] != vs[j]
  }

  /** The filter depends on its input only through the per-version matches. */
  lemma {:induction false} SelectedByMatching(x: seq<ModelPackage>, y: seq<ModelPackage>, versions: seq<Version>)
    requires forall v :: v in versions ==> Matching(x, v) == Matching(y, v)
    ensures Selected(x, versions) == Selected(y, versions)
    decreases |versions|
  {
    if versions != [] {
      var n := |versions| - 1;
      assert forall v :: v in versions[..n] ==> v in versions;
      SelectedByMatching(x, y, versions[..n]);
      assert versions[n] in versions;
    }
  }

  /** Filtering by a duplicate-free version list, then by one version, is
      filtering by that version if it was in the list and nothing otherwise. */
  lemma {:induction false} MatchingOfSelected(packages: seq<ModelPackage>, unique: seq<Version>, v: Version)
    requires NoDup(unique)
    ensures Matching(Selected(packages, unique), v) == if v in unique then Matching(packages, v) else []
    decreases |unique|
  {
    if unique != [] {
      var n := |unique| - 1;
      var w := unique[n];
      assert NoDup(unique[..n]);
      assert unique == unique[..n] + [w];
      assert w !in unique[..n] by {
        forall i | 0 <= i < n ensures unique[..n][i] != w {
          assert unique[i] != unique[n];
        }
      }
      MatchingOfSelected(packages, unique[..n], v);
      MatchingAppend(Selected(packages, unique[..n]), Matching(packages, w), v);
      MatchingTwice(packages, w, v);
    }
  }

  /** Re-filtering the result of a filter by a duplicate-free list that covers
      the requested versions gives the direct filter: the order in which the
      intermediate set of versions is enumerated does not matter. */
  lemma SelectedAbsorbs(packages: seq<ModelPackage>, unique: seq<Version>, versions: seq<Version>)
    requires NoDup(unique)
    requires forall v :: v in versions ==> v in unique
    ensures Selected(Selected(packages, unique), versions) == Selected(packages, versions)
  {
    forall v | v in versions
      ensures Matching(Selected(packages, unique), v) == Matching(packages, v)
    {
      MatchingOfSelected(packages, unique, v);
    }
    SelectedByMatching(Selected(packages, unique), packages, versions);
  }

  lemma VersionsExtend(prev: seq<ModelPackage>, m: seq<ModelPackage>, versions: seq<Version>)
    requires versions != [] && |prev| == |versions| - 1 && |m| == 1
    requires forall i :: 0 <= i < |prev| ==> prev[i].version == versions[..|prev|][i]
    requires m[0].version == versions[|prev|]
    ensures |prev + m| == |versions|
    ensures forall i :: 0 <= i < |versions| ==> (prev + m)[i].version == versions[i]
  {
    forall i | 0 <= i < |versions| ensures (prev + m)[i].version == versions[i] {
      if i < |prev| {
        assert (prev + m)[i] == prev[i] && versions[..|prev|][i] == versions[i];
      }
    }
  }

  /** When every requested version matches exactly one package, the result
      has one package per requested version, at the requested position. */
  lemma {:induction false} SelectedOnePerVersion(packages: seq<ModelPackage>, versions: seq<Version>)
    requires forall v :: v in versions ==> |Matching(packages, v)| == 1
    ensures |Selected(packages, versions)| == |versions|
    ensures forall i :: 0 <= i < |versions| ==> Selected(packages, versions)[i].version == versions[i]
    decreases |versions|
  {
    if versions != [] {
      var n := |versions| - 1;
      assert forall v :: v in versions[..n] ==> v in versions;
      SelectedOnePerVersion(packages, versions[..n]);
      assert versions[n] in versions;
      var m := Matching(packages, versions[n]);
      assert m[0] in m;
      MatchingMembers(packages, versions[n], m[0]);
      VersionsExtend(Selected(packages, versions[..n]), m, versions);
    }
  }

  /** The package list of the unit test: versions 1, 3, 2 filtered by [2, 3, 2]
      gives the version-2, version-3 and version-2 packages again. */
  lemma SelectedTestScenario(p1: ModelPackage, p2: ModelPackage, p3: ModelPackage)
    requires p1.version == 1 && p2.version == 2 && p3.version == 3
    ensures Selected([p1, p3, p2], [2, 3, 2]) == [p2, p3, p2]
  {
    var ps := [p1, p3, p2];
    assert Matching(ps, 2) == [p2] by {
      assert ps[1..] == [p3, p2] && [p3, p2][1..] == [p2] && [p2][1..] == [];
      assert Matching([p2], 2) == [p2];
      assert Matching([p3, p2], 2) == [p2];
    }
    assert Matching(ps, 3) == [p3] by {
      assert ps[1..] == [p3, p2] && [p3, p2][1..] == [p2] && [p2][1..] == [];
      assert Matching([p2], 3) == [];
      assert Matching([p3, p2], 3) == [p3];
    }
    assert Selected(ps, [2]) == [p2] by {
      assert [2][..0] == [];
    }
    assert Selected(ps, [2, 3]) == [p2, p3] by {
      assert [2, 3][..1] == [2];
    }
    assert [2, 3, 2][..2] == [2, 3];
  }

  /** The versions of a list, duplicates dropped, in first-occurrence order. */
  function Dedup(vs: seq<Version>): (r: seq<Version>)
    ensures NoDup(r)
    ensures forall x :: x in r <==> x in vs
    decreases |vs|
  {
    if vs == [] then []
    else
      var n := |vs| - 1;
      var d := Dedup(vs[..n]);
      assert vs == vs[..n] + [vs[n]];
      if vs[n] in d then d else d + [vs[n]]
  }

  // ---------------------------------------------------------------------------
  // get_latest_approved_packages

  function LatestRequest(groupName: string, maxResults: int, creationTimeAfter: Option<int>): ListRequest {
    ListRequest(groupName, "Approved", "CreationTime", maxResults, creationTimeAfter, None)
  }

  /** After fetching replies 0..i, the latest-approved loop stops: the reply was
      an error, had no token, or enough packages have been collected. */
  predicate LatestStopsAt(pages: seq<ListReply>, maxResults: int, i: nat)
    requires i < |pages|
  {
    pages[i].Fault? || pages[i].nextToken.None? || |Packages(pages[..i + 1])| >= maxResults
  }

  function LatestFetchFrom(pages: seq<ListReply>, maxResults: int, i: nat): (k: nat)
    requires ValidListing(pages) && i < |pages|
    ensures i < k <= |pages|
    decreases |pages| - i
  {
    if LatestStopsAt(pages, maxResults, i) then i + 1
    else LatestFetchFrom(pages, maxResults, i + 1)
  }

  /** How many `list_model_packages` calls the latest-approved lookup makes. */
  function LatestFetchCount(pages: seq<ListReply>, maxResults: int): (k: nat)
    requires ValidListing(pages)
    ensures 0 < k <= |pages|
  {
    LatestFetchFrom(pages, maxResults, 0)
  }

  lemma {:induction false} LatestFetchFromShape(pages: seq<ListReply>, maxResults: int, i: nat)
    requires ValidListing(pages) && i < |pages|
    ensures LatestStopsAt(pages, maxResults, LatestFetchFrom(pages, maxResults, i) - 1)
    ensures forall j :: i <= j < LatestFetchFrom(pages, maxResults, i) - 1 ==> !LatestStopsAt(pages, maxResults, j)
    decreases |pages| - i
  {
    if LatestStopsAt(pages, maxResults, i) {
      assert LatestFetchFrom(pages, maxResults, i) - 1 == i;
    } else {
      assert i + 1 < |pages|;
      var k := LatestFetchFrom(pages, maxResults, i + 1);
      assert LatestFetchFrom(pages, maxResults, i) == k;
      LatestFetchFromShape(pages, maxResults, i + 1);
      assert LatestStopsAt(pages, maxResults, k - 1);
      forall j | i <= j < k - 1 ensures !LatestStopsAt(pages, maxResults, j) {
        if j > i {
          assert i + 1 <= j < k - 1;
        }
      }
    }
  }

  /** The lookup asks for another page only while fewer than `maxResults`
      packages are collected and the last reply had a `NextToken`, and it stops
      as soon as either fails or a call errs. */
  lemma LatestFetchesOnlyWhileShort(pages: seq<ListReply>, maxResults: int)
    requires ValidListing(pages)
    ensures var k := LatestFetchCount(pages, maxResults);
      && (forall j :: 0 < j < k ==>
            pages[j - 1].Page? && pages[j - 1].nextToken.Some? && |Packages(pages[..j])| < maxResults)
      && (pages[k - 1].Fault? || pages[k - 1].nextToken.None? || |Packages(pages[..k])| >= maxResults)
  {
    LatestFetchFromShape(pages, maxResults, 0);
    var k := LatestFetchCount(pages, maxResults);
    forall j | 0 < j < k
      ensures pages[j - 1].Page? && pages[j - 1].nextToken.Some? && |Packages(pages[..j])| < maxResults
    {
      assert !LatestStopsAt(pages, maxResults, j - 1);
    }
  }

  /** What `get_latest_approved_packages` returns or raises. */
  function LatestApproved(groupName: string, maxResults: int, creationTimeAfter: Option<int>, pages: seq<ListReply>)
    : Result<seq<ModelPackage>, RegistryError>
    requires ValidListing(pages)
  {
    var k := LatestFetchCount(pages, maxResults);
    if pages[k - 1].Fault? then Failure(ServiceError(pages[k - 1].error.message))
    else
      var collected := Packages(pages[..k]);
      if |collected| == 0 && creationTimeAfter.None? then Failure(NoApprovedPackages(groupName))
      else Success(PySliceTo(collected, maxResults))
  }

  method GetLatestApprovedPackages(
    groupName: string, maxResults: int, creationTimeAfter: Option<int>, pages: seq<ListReply>)
    returns (r: Result<seq<ModelPackage>, RegistryError>, requests: seq<ListRequest>)
    requires ValidListing(pages)
    ensures r == LatestApproved(groupName, maxResults, creationTimeAfter, pages)
    ensures requests == Requests(LatestRequest(groupName, maxResults, creationTimeAfter), pages,
                                 LatestFetchCount(pages, maxResults))
  {
    ghost var first := LatestRequest(groupName, maxResults, creationTimeAfter);
    ghost var k := LatestFetchCount(pages, maxResults);
    var args := LatestRequest(groupName, maxResults, creationTimeAfter);
    requests := [args];
    var response := pages[0];
    var calls := 1;
    var modelPackages := Summaries(response);
    PackagesStep(pages, 0);
    assert pages[..0] == [];
    // A client error ends the loop and is re-raised after it, as the `except` clause does.
    while response.Page? && |modelPackages| < maxResults && response.nextToken.Some?
      invariant 1 <= calls <= |pages|
      invariant response == pages[calls - 1]
      invariant modelPackages == Packages(pages[..calls])
      invariant args == first.(nextToken := args.nextToken)
      invariant requests == Requests(first, pages, calls)
      invariant LatestFetchFrom(pages, maxResults, calls - 1) == k
      decreases |pages| - calls
    {
      LatestFetchNext(pages, maxResults, calls - 1);
      RequestsNext(first, pages, calls);
      args := args.(nextToken := response.nextToken);
      response := pages[calls];
      requests := requests + [args];
      PackagesStep(pages, calls);
      calls := calls + 1;
      modelPackages := modelPackages + Summaries(response);
    }
    LatestFetchNext(pages, maxResults, calls - 1);
    if response.Fault? {
      return Failure(ServiceError(response.error.message)), requests;
    }
    if |modelPackages| == 0 && creationTimeAfter.None? {
      return Failure(NoApprovedPackages(groupName)), requests;
    }
    r := Success(PySliceTo(modelPackages, maxResults));
  }

  lemma LatestFetchNext(pages: seq<ListReply>, maxResults: int, i: nat)
    requires ValidListing(pages) && i < |pages|
    ensures LatestStopsAt(pages, maxResults, i) ==> LatestFetchFrom(pages, maxResults, i) == i + 1
    ensures !LatestStopsAt(pages, maxResults, i) ==>
      i + 1 < |pages| && LatestFetchFrom(pages, maxResults, i) == LatestFetchFrom(pages, maxResults, i + 1)
  {
  }

  /** Never more than `maxResults` packages, and always a prefix of the
      concatenated pages, in page order. */
  lemma LatestIsBoundedPrefix(groupName: string, maxResults: int, creationTimeAfter: Option<int>, pages: seq<ListReply>)
    requires ValidListing(pages) && maxResults >= 0
    ensures var r := LatestApproved(groupName, maxResults, creationTimeAfter, pages);
      r.Success? ==> |r.value| <= maxResults && r.value <= Packages(pages)
  {
    var k := LatestFetchCount(pages, maxResults);
    PackagesAppend(pages[..k], pages[k..]);
    assert pages[..k] + pages[k..] == pages;
  }

  /** A latest-approved lookup that stops before the last page has collected
      at least `maxResults` packages. */
  lemma LatestEarlyStopCount(pages: seq<ListReply>, maxResults: int)
    requires ValidListing(pages) && LatestFetchCount(pages, maxResults) < |pages|
    ensures |Packages(pages[..LatestFetchCount(pages, maxResults)])| >= maxResults
  {
    var k := LatestFetchCount(pages, maxResults);
    LatestFetchFromShape(pages, maxResults, 0);
    assert LatestStopsAt(pages, maxResults, k - 1);
    assert pages[k - 1].Page? && pages[k - 1].nextToken.Some?;
  }

  /** With a positive `maxResults` and a listing that ends without an error, the
      lookup returns the first `min(maxResults, total)` packages of the whole
      listing, fails when the listing is empty and no time filter was given,
      and returns the empty list when it is empty under a time filter. */
  lemma {:induction false} LatestIsNewestPrefix(
    groupName: string, maxResults: int, creationTimeAfter: Option<int>, pages: seq<ListReply>)
    requires ValidListing(pages) && maxResults >= 1 && pages[|pages| - 1].Page?
    ensures LatestApproved(groupName, maxResults, creationTimeAfter, pages) ==
      var all := Packages(pages);
      if all == [] && creationTimeAfter.None? then Failure(NoApprovedPackages(groupName))
      else Success(all[..Min(maxResults, |all|)])
  {
    var k := LatestFetchCount(pages, maxResults);
    var fetched := Packages(pages[..k]);
    var all := Packages(pages);
    assert LatestApproved(groupName, maxResults, creationTimeAfter, pages) ==
      if fetched == [] && creationTimeAfter.None? then Failure(NoApprovedPackages(groupName))
      else Success(fetched[..Min(maxResults, |fetched|)]);
    if k < |pages| {
      PackagesSplit(pages, k);
      LatestEarlyStopCount(pages, maxResults);
      assert all[..maxResults] == fetched[..maxResults];
    } else {
      assert pages[..k] == pages;
    }
  }

  /** The asymmetric empty result: an empty listing raises only when no
      `creation_time_after` filter was given; under a filter it is `[]`. */
  lemma LatestEmptyListing(groupName: string, maxResults: int, creationTimeAfter: Option<int>, pages: seq<ListReply>)
    requires ValidListing(pages) && maxResults >= 1 && pages[|pages| - 1].Page?
    requires Packages(pages) == []
    ensures LatestApproved(groupName, maxResults, creationTimeAfter, pages) ==
      if creationTimeAfter.None? then Failure(NoApprovedPackages(groupName)) else Success([])
  {
    LatestIsNewestPrefix(groupName, maxResults, creationTimeAfter, pages);
  }

  /** Without a time filter and with a positive bound, a successful lookup
      returns at least one package: an empty collection raises instead. */
  lemma LatestSuccessNonEmpty(groupName: string, maxResults: int, pages: seq<ListReply>)
    requires ValidListing(pages) && maxResults >= 1
    ensures var r := LatestApproved(groupName, maxResults, None, pages);
      r.Success? ==> r.value != [] && r.value[0] == Packages(pages[..LatestFetchCount(pages, maxResults)])[0]
  {
    var r := LatestApproved(groupName, maxResults, None, pages);
    if r.Success? {
      var collected := Packages(pages[..LatestFetchCount(pages, maxResults)]);
      assert r.value == collected[..Min(maxResults, |collected|)];
    }
  }

  /** Without a time filter, a successful lookup starts with the newest package
      of the whole listing, whatever the listing holds after the pages read. */
  lemma LatestStartsWithNewest(groupName: string, maxResults: int, pages: seq<ListReply>)
    requires ValidListing(pages) && maxResults >= 1
    ensures var r := LatestApproved(groupName, maxResults, None, pages);
      r.Success? ==> Packages(pages) != [] && r.value[0] == Packages(pages)[0]
  {
    var r := LatestApproved(groupName, maxResults, None, pages);
    LatestSuccessNonEmpty(groupName, maxResults, pages);
    if r.Success? {
      var k := LatestFetchCount(pages, maxResults);
      PackagesSplit(pages, k);
      assert Packages(pages)[0] == Packages(pages[..k])[0];
    }
  }

  /** The packages of a longer prefix of the listing extend those of a shorter one. */
  lemma PackagesGrow(pages: seq<ListReply>, i: nat, j: nat)
    requires i <= j <= |pages|
    ensures |Packages(pages[..i])| <= |Packages(pages[..j])|
  {
    PackagesAppend(pages[..i], pages[i..j]);
    assert pages[..i] + pages[i..j] == pages[..j];
  }

  /** A client error is reached, and re-raised with its message, exactly when
      the pages before it hold fewer than `maxResults` packages. */
  lemma LatestRaisesClientError(groupName: string, maxResults: int, creationTimeAfter: Option<int>, pages: seq<ListReply>)
    requires ValidListing(pages) && maxResults >= 1 && pages[|pages| - 1].Fault?
    ensures var last := |pages| - 1;
      LatestApproved(groupName, maxResults, creationTimeAfter, pages) == Failure(ServiceError(pages[last].error.message))
      <==> |Packages(pages[..last])| < maxResults
  {
    var last := |pages| - 1;
    var k := LatestFetchCount(pages, maxResults);
    LatestFetchFromShape(pages, maxResults, 0);
    var r := LatestApproved(groupName, maxResults, creationTimeAfter, pages);
    if k < |pages| {
      assert pages[k - 1].Page? && pages[k - 1].nextToken.Some?;
      assert r.Success?;
      PackagesGrow(pages, k, last);
      assert |Packages(pages[..last])| >= maxResults;
    } else {
      assert r == Failure(ServiceError(pages[last].error.message));
      if last > 0 {
        assert !LatestStopsAt(pages, maxResults, last - 1);
      }
    }
  }

  /** The unit test's listing: an empty page, a page with version 3, then a page
      with versions 2 and 1, asked for two packages, gives versions 3 and 2. */
  lemma LatestTestScenario(p1: ModelPackage, p2: ModelPackage, p3: ModelPackage, t1: string, t2: string, after: Option<int>)
    ensures var pages := [Page([], Some(t1)), Page([p3], Some(t2)), Page([p2, p1], None)];
      ValidListing(pages) && LatestApproved("test-package-group", 2, after, pages) == Success([p3, p2])
  {
    var pages := [Page([], Some(t1)), Page([p3], Some(t2)), Page([p2, p1], None)];
    TestListingPackages(p1, p2, p3, t1, t2);
    LatestIsNewestPrefix("test-package-group", 2, after, pages);
    assert [p3, p2, p1][..2] == [p3, p2];
  }

  lemma TestListingPackages(p1: ModelPackage, p2: ModelPackage, p3: ModelPackage, t1: string, t2: string)
    ensures var pages := [Page([], Some(t1)), Page([p3], Some(t2)), Page([p2, p1], None)];
      ValidListing(pages) && Packages(pages) == [p3, p2, p1]
  {
    var a, b, c := Page([], Some(t1)), Page([p3], Some(t2)), Page([p2, p1], None);
    PackagesSnoc([], a);
    assert [] + [a] == [a];
    PackagesSnoc([a], b);
    assert [a] + [b] == [a, b];
    PackagesSnoc([a, b], c);
    assert [a, b] + [c] == [a, b, c];
  }

  // ---------------------------------------------------------------------------
  // get_versioned_approved_packages

  /** Page size of the versioned lookup. */
  const VersionedPageSize := 100

  function VersionedRequest(groupName: string): ListRequest {
    ListRequest(groupName, "Approved", "CreationTime", VersionedPageSize, None, None)
  }

  /** The packages the versioned loop accumulates: each page filtered by the
      set of requested versions, pages concatenated in order. */
  function MatchedPages(pages: seq<ListReply>, unique: seq<Version>): seq<ModelPackage>
    decreases |pages|
  {
    if pages == [] then []
    else MatchedPages(pages[..|pages| - 1], unique) + Selected(Summaries(pages[|pages| - 1]), unique)
  }

  lemma MatchedPagesStep(pages: seq<ListReply>, unique: seq<Version>, i: nat)
    requires i < |pages|
    ensures MatchedPages(pages[..i + 1], unique) == MatchedPages(pages[..i], unique) + Selected(Summaries(pages[i]), unique)
  {
    assert pages[..i + 1][..i] == pages[..i];
  }

  lemma {:induction false} MatchedPagesMembers(pages: seq<ListReply>, unique: seq<Version>, p: ModelPackage)
    ensures p in MatchedPages(pages, unique) <==> p in Packages(pages) && p.version in unique
    decreases |pages|
  {
    if pages != [] {
      var n := |pages| - 1;
      MatchedPagesMembers(pages[..n], unique, p);
      SelectedMembers(Summaries(pages[n]), unique, p);
    }
  }

  lemma {:induction false} MatchedPagesMatching(pages: seq<ListReply>, unique: seq<Version>, v: Version)
    requires NoDup(unique) && v in unique
    ensures Matching(MatchedPages(pages, unique), v) == Matching(Packages(pages), v)
    decreases |pages|
  {
    if pages != [] {
      var n := |pages| - 1;
      MatchedPagesMatching(pages[..n], unique, v);
      MatchingAppend(MatchedPages(pages[..n], unique), Selected(Summaries(pages[n]), unique), v);
      MatchingAppend(Packages(pages[..n]), Summaries(pages[n]), v);
      MatchingOfSelected(Summaries(pages[n]), unique, v);
    }
  }

  predicate VersionedStopsAt(pages: seq<ListReply>, unique: seq<Version>, i: nat)
    requires i < |pages|
  {
    pages[i].Fault? || pages[i].nextToken.None? || |MatchedPages(pages[..i + 1], unique)| >= |unique|
  }

  /** For each call, whether the versioned loop stops after it. */
  function VersionedStops(pages: seq<ListReply>, unique: seq<Version>): (r: seq<bool>)
    ensures |r| == |pages|
    ensures forall i :: 0 <= i < |pages| ==> r[i] == VersionedStopsAt(pages, unique, i)
  {
    seq(|pages|, i requires 0 <= i < |pages| => VersionedStopsAt(pages, unique, i))
  }

  /** The number of calls the versioned loop has made when it stops, having
      made calls `0..i` without stopping before `i`. */
  function VersionedFetchFrom(pages: seq<ListReply>, unique: seq<Version>, i: nat): (k: nat)
    requires ValidListing(pages) && i < |pages|
    ensures i < k <= |pages|
    ensures VersionedStopsAt(pages, unique, k - 1)
  {
    var stops := VersionedStops(pages, unique);
    assert stops[|pages| - 1] == VersionedStopsAt(pages, unique, |pages| - 1);
    FirstStop(stops, i)
  }

  /** How many `list_model_packages` calls the versioned lookup makes. */
  function VersionedFetchCount(pages: seq<ListReply>, unique: seq<Version>): (k: nat)
    requires ValidListing(pages)
    ensures 0 < k <= |pages|
  {
    VersionedFetchFrom(pages, unique, 0)
  }

  /** What `get_versioned_approved_packages` returns or raises. `Dedup` fixes
      one enumeration order of Python's `set(model_package_versions)`;
      `SelectedAbsorbs` shows the result does not depend on that order. */
  function VersionedApproved(groupName: string, versions: seq<Version>, pages: seq<ListReply>)
    : Result<seq<ModelPackage>, RegistryError>
    requires ValidListing(pages)
  {
    var unique := Dedup(versions);
    var k := VersionedFetchCount(pages, unique);
    if pages[k - 1].Fault? then Failure(ServiceError(pages[k - 1].error.message))
    else
      var matched := MatchedPages(pages[..k], unique);
      if |matched| == 0 then Failure(NoApprovedVersions(groupName, versions))
      else Success(Selected(matched, versions))
  }

  lemma VersionedFetchNext(pages: seq<ListReply>, unique: seq<Version>, i: nat)
    requires ValidListing(pages) && i < |pages|
    ensures VersionedStopsAt(pages, unique, i) ==> VersionedFetchFrom(pages, unique, i) == i + 1
    ensures !VersionedStopsAt(pages, unique, i) ==>
      i + 1 < |pages| && VersionedFetchFrom(pages, unique, i) == VersionedFetchFrom(pages, unique, i + 1)
  {
  }

  /** Every package the versioned lookup returns has a requested version, and
      a successful lookup returns at least one package. */
  lemma VersionedReturnsRequested(groupName: string, versions: seq<Version>, pages: seq<ListReply>)
    requires ValidListing(pages)
    ensures var r := VersionedApproved(groupName, versions, pages);
      r.Success? ==> r.value != [] && forall p :: p in r.value ==> p.version in versions
  {
    var r := VersionedApproved(groupName, versions, pages);
    if r.Success? {
      var unique := Dedup(versions);
      var k := VersionedFetchCount(pages, unique);
      var matched := MatchedPages(pages[..k], unique);
      assert r.value == Selected(matched, versions);
      MatchedPagesMembers(pages[..k], unique, matched[0]);
      SelectedMembers(matched, versions, matched[0]);
      forall p | p in r.value ensures p.version in versions {
        SelectedMembers(matched, versions, p);
      }
    }
  }

  /** The client error the listing ends with, if it ends in one. */
  function ListingFault(pages: seq<ListReply>): (m: Option<string>)
    requires pages != []
    ensures m.Some? <==> pages[|pages| - 1].Fault?
  {
    if pages[|pages| - 1].Fault? then Some(pages[|pages| - 1].error.message) else None
  }

  /** When no package of the listing has a requested version, no prefix of it
      matches anything. */
  lemma NothingMatched(pages: seq<ListReply>, unique: seq<Version>, j: nat)
    requires j <= |pages|
    requires forall p :: p in Packages(pages) ==> p.version !in unique
    ensures MatchedPages(pages[..j], unique) == []
  {
    var matched := MatchedPages(pages[..j], unique);
    forall p | p in matched ensures false {
      MatchedPagesMembers(pages[..j], unique, p);
      PackagesSplit(pages, j);
    }
    EmptyIffNoMember(matched);
  }

  /** When no prefix matches anything and something is requested, the
      versioned loop, from any call on, reads every page. */
  lemma {:induction false} NothingMatchedReadsFrom(pages: seq<ListReply>, unique: seq<Version>, i: nat)
    requires ValidListing(pages) && unique != [] && i < |pages|
    requires forall p :: p in Packages(pages) ==> p.version !in unique
    ensures VersionedFetchFrom(pages, unique, i) == |pages|
    decreases |pages| - i
  {
    VersionedFetchNext(pages, unique, i);
    if i + 1 < |pages| {
      NothingMatched(pages, unique, i + 1);
      NothingMatchedReadsFrom(pages, unique, i + 1);
    }
  }

  lemma NothingMatchedReadsAll(pages: seq<ListReply>, unique: seq<Version>)
    requires ValidListing(pages) && unique != []
    requires forall p :: p in Packages(pages) ==> p.version !in unique
    ensures VersionedFetchCount(pages, unique) == |pages|
  {
    NothingMatchedReadsFrom(pages, unique, 0);
  }


  /** Asking for one version that no package of the listing has: nothing is
      ever collected, so the loop reads every page, and the lookup raises the
      client error the listing ends with, or else "no approved packages". */
  lemma AbsentVersionReadsAll(groupName: string, n: Version, pages: seq<ListReply>)
    requires ValidListing(pages)
    requires forall p :: p in Packages(pages) ==> p.version != n
    ensures VersionedFetchCount(pages, Dedup([n])) == |pages|
    ensures VersionedApproved(groupName, [n], pages) ==
      match ListingFault(pages)
      case Some(m) => Failure(ServiceError(m))
      case None => Failure(NoApprovedVersions(groupName, [n]))
  {
    var unique := Dedup([n]);
    assert n in unique;
    NothingMatchedReadsAll(pages, unique);
    NothingMatched(pages, unique, |pages|);
    var last := pages[|pages| - 1];
    assert VersionedApproved(groupName, [n], pages) ==
      if last.Fault? then Failure(ServiceError(last.error.message))
      else Failure(NoApprovedVersions(groupName, [n]));
  }

  /** The paging loop of `get_versioned_approved_packages`: the last reply it
      receives, the packages it collects up to it, and the requests it makes. */
  method CollectVersioned(groupName: string, unique: seq<Version>, pages: seq<ListReply>)
    returns (response: ListReply, modelPackages: seq<ModelPackage>, requests: seq<ListRequest>)
    requires ValidListing(pages)
    ensures var k := VersionedFetchCount(pages, unique);
      && response == pages[k - 1]
      && (response.Page? ==> modelPackages == MatchedPages(pages[..k], unique))
      && requests == Requests(VersionedRequest(groupName), pages, k)
  {
    ghost var first := VersionedRequest(groupName);
    ghost var k := VersionedFetchCount(pages, unique);
    var args := VersionedRequest(groupName);
    requests := [args];
    response := pages[0];
    var calls := 1;
    modelPackages := [];
    if response.Page? {
      modelPackages := SelectVersionedPackages(response.summaries, unique);
      MatchedPagesStep(pages, unique, 0);
      assert pages[..0] == [];
    }
    while response.Page? && |modelPackages| < |unique| && response.nextToken.Some?
      invariant 1 <= calls <= |pages|
      invariant response == pages[calls - 1]
      invariant response.Page? ==> modelPackages == MatchedPages(pages[..calls], unique)
      invariant args == first.(nextToken := args.nextToken)
      invariant requests == Requests(first, pages, calls)
      invariant VersionedFetchFrom(pages, unique, calls - 1) == k
      decreases |pages| - calls
    {
      VersionedFetchNext(pages, unique, calls - 1);
      RequestsNext(first, pages, calls);
      args := args.(nextToken := response.nextToken);
      response := pages[calls];
      requests := requests + [args];
      calls := calls + 1;
      if response.Page? {
        MatchedPagesStep(pages, unique, calls - 1);
        var more := SelectVersionedPackages(response.summaries, unique);
        modelPackages := modelPackages + more;
      }
    }
    VersionedFetchNext(pages, unique, calls - 1);
  }

  method GetVersionedApprovedPackages(groupName: string, versions: seq<Version>, pages: seq<ListReply>)
    returns (r: Result<seq<ModelPackage>, RegistryError>, requests: seq<ListRequest>)
    requires ValidListing(pages)
    ensures r == VersionedApproved(groupName, versions, pages)
    ensures requests == Requests(VersionedRequest(groupName), pages, VersionedFetchCount(pages, Dedup(versions)))
  {
    var unique := Dedup(versions);
    var response, modelPackages;
    response, modelPackages, requests := CollectVersioned(groupName, unique, pages);
    if response.Fault? {
      return Failure(ServiceError(response.error.message)), requests;
    }
    if |modelPackages| == 0 {
      return Failure(NoApprovedVersions(groupName, versions)), requests;
    }
    var ordered := SelectVersionedPackages(modelPackages, versions);
    r := Success(ordered);
  }

  /** No package of the list has a requested version. */
  ghost predicate NoneRequested(packages: seq<ModelPackage>, versions: seq<Version>) {
    forall p :: p in packages ==> p.version !in versions
  }

  /** Over the pages it fetched, the versioned lookup raises exactly when none
      of them holds a requested version, and otherwise returns the fetched
      packages ordered by the requested list (duplicates repeated), even when
      some requested versions were not found. */
  lemma VersionedResultMeaning(groupName: string, versions: seq<Version>, pages: seq<ListReply>)
    requires ValidListing(pages)
    ensures var k := VersionedFetchCount(pages, Dedup(versions));
      var fetched := Packages(pages[..k]);
      pages[k - 1].Page? ==>
        VersionedApproved(groupName, versions, pages) ==
          if NoneRequested(fetched, versions) then Failure(NoApprovedVersions(groupName, versions))
          else Success(Selected(fetched, versions))
  {
    var unique := Dedup(versions);
    var k := VersionedFetchCount(pages, unique);
    var fetched := Packages(pages[..k]);
    var matched := MatchedPages(pages[..k], unique);
    if pages[k - 1].Page? {
      forall v | v in versions
        ensures Matching(matched, v) == Matching(fetched, v)
      {
        MatchedPagesMatching(pages[..k], unique, v);
      }
      SelectedByMatching(matched, fetched, versions);
      if NoneRequested(fetched, versions) {
        forall p ensures p !in matched {
          MatchedPagesMembers(pages[..k], unique, p);
        }
        EmptyIffNoMember(matched);
      } else {
        var p :| p in fetched && p.version in versions;
        MatchedPagesMembers(pages[..k], unique, p);
      }
    }
  }

  lemma EmptyIffNoMember<T>(s: seq<T>)
    ensures s == [] <==> forall x :: x !in s
  {
    if s != [] {
      assert s[0] in s;
    }
  }

  /** Every package of the list has a different version (the registry's own
      invariant within one model package group). */
  ghost predicate UniqueVersions(packages: seq<ModelPackage>) {
    forall i, j :: 0 <= i < j < |packages| ==> packages[i].version != packages[j].version
  }

  /** A version matches nothing exactly when no package has it. */
  lemma {:induction false} MatchingEmpty(packages: seq<ModelPackage>, v: Version)
    ensures Matching(packages, v) == [] <==> forall p :: p in packages ==> p.version != v
    decreases |packages|
  {
    if packages != [] {
      MatchingEmpty(packages[1..], v);
      assert packages == [packages[0]] + packages[1..];
    }
  }

  lemma {:induction false} UniqueMatchesAtMostOne(packages: seq<ModelPackage>, v: Version)
    requires UniqueVersions(packages)
    ensures |Matching(packages, v)| <= 1
    decreases |packages|
  {
    if packages != [] {
      var rest := packages[1..];
      assert UniqueVersions(rest) by {
        forall i, j | 0 <= i < j < |rest| ensures rest[i].version != rest[j].version {
          assert rest[i] == packages[i + 1] && rest[j] == packages[j + 1];
        }
      }
      UniqueMatchesAtMostOne(rest, v);
      if packages[0].version == v {
        forall q | q in rest ensures q.version != v {
          var j :| 0 <= j < |rest| && rest[j] == q;
          assert packages[j + 1] == q;
        }
        MatchingEmpty(rest, v);
      }
    }
  }

  lemma {:induction false} SelectedOfOne(p: ModelPackage, unique: seq<Version>)
    requires NoDup(unique)
    ensures |Selected([p], unique)| == if p.version in unique then 1 else 0
    decreases |unique|
  {
    if unique != [] {
      var n := |unique| - 1;
      assert NoDup(unique[..n]);
      assert unique == unique[..n] + [unique[n]];
      assert unique[n] !in unique[..n] by {
        forall i | 0 <= i < n ensures unique[..n][i] != unique[n] {
          assert unique[i] != unique[n];
        }
      }
      SelectedOfOne(p, unique[..n]);
      assert [p][1..] == [];
      assert Matching([p], unique[n]) == if p.version == unique[n] then [p] else [];
      assert p.version in unique <==> p.version in unique[..n] || p.version == unique[n];
    }
  }

  /** Filtering by a duplicate-free list that covers every version present
      loses nothing and repeats nothing, as a count. */
  lemma {:induction false} SelectedKeepsCount(packages: seq<ModelPackage>, unique: seq<Version>)
    requires NoDup(unique)
    requires forall p :: p in packages ==> p.version in unique
    ensures |Selected(packages, unique)| == |packages|
    decreases |packages|
  {
    if packages != [] {
      assert packages == [packages[0]] + packages[1..];
      assert packages[0] in packages;
      SelectedLengthAppend([packages[0]], packages[1..], unique);
      SelectedOfOne(packages[0], unique);
      SelectedKeepsCount(packages[1..], unique);
    } else {
      SelectedOfNothing(unique);
    }
  }

  lemma {:induction false} SelectedOfNothing(versions: seq<Version>)
    ensures Selected([], versions) == []
    decreases |versions|
  {
    if versions != [] {
      SelectedOfNothing(versions[..|versions| - 1]);
    }
  }

  /** If no version matches twice, the filter has at most one package per
      requested version; if it has at least that many, every version matched. */
  lemma {:induction false} SelectedCountsVersions(packages: seq<ModelPackage>, unique: seq<Version>)
    requires forall v :: v in unique ==> |Matching(packages, v)| <= 1
    ensures |Selected(packages, unique)| <= |unique|
    ensures |Selected(packages, unique)| >= |unique| ==> forall v :: v in unique ==> |Matching(packages, v)| == 1
    decreases |unique|
  {
    if unique != [] {
      var n := |unique| - 1;
      assert forall v :: v in unique[..n] ==> v in unique;
      assert unique[n] in unique;
      SelectedCountsVersions(packages, unique[..n]);
      assert forall v :: v in unique ==> v in unique[..n] || v == unique[n];
    }
  }

  lemma MatchedPagesCount(pages: seq<ListReply>, unique: seq<Version>)
    requires NoDup(unique)
    ensures |MatchedPages(pages, unique)| == |Selected(Packages(pages), unique)|
  {
    var matched := MatchedPages(pages, unique);
    forall p | p in matched ensures p.version in unique {
      MatchedPagesMembers(pages, unique, p);
    }
    SelectedKeepsCount(matched, unique);
    forall v | v in unique ensures Matching(matched, v) == Matching(Packages(pages), v) {
      MatchedPagesMatching(pages, unique, v);
    }
    SelectedByMatching(matched, Packages(pages), unique);
  }

  /** A prefix of a list with unique versions that already holds as many
      matches as there are distinct requested versions holds every package of
      the whole list with a requested version. */
  lemma PrefixCoversRequested(a: seq<ModelPackage>, b: seq<ModelPackage>, unique: seq<Version>)
    requires NoDup(unique) && UniqueVersions(a + b)
    requires |Selected(a, unique)| >= |unique|
    ensures forall v :: v in unique ==> |Matching(a, v)| == 1 && Matching(a, v) == Matching(a + b, v)
  {
    assert UniqueVersions(a) by {
      forall i, j | 0 <= i < j < |a| ensures a[i].version != a[j].version {
        assert a[i] == (a + b)[i] && a[j] == (a + b)[j];
      }
    }
    forall v | v in unique ensures |Matching(a, v)| <= 1 {
      UniqueMatchesAtMostOne(a, v);
    }
    SelectedCountsVersions(a, unique);
    forall v | v in unique ensures Matching(a, v) == Matching(a + b, v) {
      MatchingAppend(a, b, v);
      UniqueMatchesAtMostOne(a + b, v);
    }
  }

  /** A versioned lookup that stops before the last page has collected at
      least as many packages as there are distinct requested versions. */
  lemma EarlyStopCount(pages: seq<ListReply>, unique: seq<Version>)
    requires ValidListing(pages) && NoDup(unique)
    requires VersionedFetchCount(pages, unique) < |pages|
    ensures var k := VersionedFetchCount(pages, unique);
      |Selected(Packages(pages[..k]), unique)| >= |unique|
  {
    var k := VersionedFetchCount(pages, unique);
    assert VersionedStopsAt(pages, unique, k - 1);
    assert pages[k - 1].Page? && pages[k - 1].nextToken.Some?;
    MatchedPagesCount(pages[..k], unique);
  }

  /** When versions are unique in the registry, stopping once as many packages
      as distinct requested versions are collected loses nothing: the result
      is the same as if the whole listing had been read. */
  lemma VersionedStopsOnlyWhenComplete(groupName: string, versions: seq<Version>, pages: seq<ListReply>)
    requires ValidListing(pages) && pages[|pages| - 1].Page?
    requires UniqueVersions(Packages(pages))
    ensures VersionedApproved(groupName, versions, pages) ==
      if NoneRequested(Packages(pages), versions) then Failure(NoApprovedVersions(groupName, versions))
      else Success(Selected(Packages(pages), versions))
  {
    var unique := Dedup(versions);
    var k := VersionedFetchCount(pages, unique);
    var fetched := Packages(pages[..k]);
    assert VersionedApproved(groupName, versions, pages) ==
      if NoneRequested(fetched, versions) then Failure(NoApprovedVersions(groupName, versions))
      else Success(Selected(fetched, versions))
    by {
      VersionedResultMeaning(groupName, versions, pages);
    }
    if k < |pages| {
      var rest := Packages(pages[k..]);
      PackagesSplit(pages, k);
      EarlyStopCount(pages, unique);
      EarlyStopSameResult(fetched, rest, versions, unique);
    } else {
      assert pages[..k] == pages;
    }
  }

  lemma EarlyStopSameResult(a: seq<ModelPackage>, b: seq<ModelPackage>, versions: seq<Version>, unique: seq<Version>)
    requires NoDup(unique) && UniqueVersions(a + b)
    requires forall v :: v in versions ==> v in unique
    requires |Selected(a, unique)| >= |unique|
    ensures Selected(a, versions) == Selected(a + b, versions)
    ensures NoneRequested(a, versions) == NoneRequested(a + b, versions)
  {
    PrefixCoversRequested(a, b, unique);
    SelectedByMatching(a, a + b, versions);
    NoneRequestedSame(a, b, versions, unique);
  }

  lemma NoneRequestedSame(a: seq<ModelPackage>, b: seq<ModelPackage>, versions: seq<Version>, unique: seq<Version>)
    requires forall v :: v in versions ==> v in unique
    requires forall v :: v in unique ==> |Matching(a, v)| == 1
    ensures NoneRequested(a, versions) == NoneRequested(a + b, versions)
  {
    if versions != [] {
      var v := versions[0];
      var m := Matching(a, v);
      assert m[0] in m;
      MatchingMembers(a, v, m[0]);
      assert m[0] in a + b;
    }
  }

  /** The unit test's listing: an empty page, a page with version 3, then a
      page with versions 2 and 1; asking for [1, 2] gives them in that order. */
  lemma VersionedTestScenario(groupName: string, p1: ModelPackage, p2: ModelPackage, p3: ModelPackage, t1: string, t2: string)
    requires p1.version == 1 && p2.version == 2 && p3.version == 3
    ensures var pages := [Page([], Some(t1)), Page([p3], Some(t2)), Page([p2, p1], None)];
      ValidListing(pages) && VersionedApproved(groupName, [1, 2], pages) == Success([p1, p2])
  {
    var pages := [Page([], Some(t1)), Page([p3], Some(t2)), Page([p2, p1], None)];
    TestListingPackages(p1, p2, p3, t1, t2);
    TestSelection(p1, p2, p3);
    TestVersions(p1, p2, p3);
    VersionedStopsOnlyWhenComplete(groupName, [1, 2], pages);
  }

  /** The test's packages, newest first, filtered by versions [1, 2]. */
  lemma TestSelection(p1: ModelPackage, p2: ModelPackage, p3: ModelPackage)
    requires p1.version == 1 && p2.version == 2 && p3.version == 3
    ensures Selected([p3, p2, p1], [1, 2]) == [p1, p2]
  {
    var all := [p3, p2, p1];
    MatchingCons(p1, [], 1);
    MatchingCons(p1, [], 2);
    assert [p1] + [] == [p1];
    MatchingCons(p2, [p1], 1);
    MatchingCons(p2, [p1], 2);
    assert [p2] + [p1] == [p2, p1];
    MatchingCons(p3, [p2, p1], 1);
    MatchingCons(p3, [p2, p1], 2);
    assert [p3] + [p2, p1] == all;
    SelectedPair(all, 1, 2);
  }

  lemma TestVersions(p1: ModelPackage, p2: ModelPackage, p3: ModelPackage)
    requires p1.version == 1 && p2.version == 2 && p3.version == 3
    ensures !NoneRequested([p3, p2, p1], [1, 2]) && UniqueVersions([p3, p2, p1])
  {
    assert [p3, p2, p1][2] == p1;
  }

  lemma MatchingCons(p: ModelPackage, rest: seq<ModelPackage>, v: Version)
    ensures Matching([p] + rest, v) == (if p.version == v then [p] else []) + Matching(rest, v)
  {
    assert ([p] + rest)[1..] == rest;
  }

  lemma SelectedPair(packages: seq<ModelPackage>, v: Version, w: Version)
    ensures Selected(packages, [v, w]) == Matching(packages, v) + Matching(packages, w)
  {
    assert Selected(packages, [v]) == Selected(packages, []) + Matching(packages, v) by {
      assert [v][..0] == [];
    }
    assert Selected(packages, [v, w]) == Selected(packages, [v]) + Matching(packages, w) by {
      assert [v, w][..1] == [v];
    }
  }
}
