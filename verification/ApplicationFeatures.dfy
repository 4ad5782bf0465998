/** The run-length and counting features of a window of observations, against their definitions. */
module ApplicationFeatures {
  import opened Wrappers

  datatype Observation = Observation(actionType: string, endpoint: string, statusCode: Option<int>)

  predicate IsAuth(o: Observation) {
    o.actionType == "register" || o.actionType == "login" || o.actionType == "refresh"
  }

  predicate IsFailure(o: Observation) {
    o.statusCode.None? || o.statusCode.value >= 400
  }

  function AuthOf(window: seq<Observation>): seq<Observation> {
    if window == [] then []
    else AuthOf(window[..|window| - 1]) + if IsAuth(window[|window| - 1]) then [window[|window| - 1]] else []
  }

  // Selecting keeps the order of what it selects.
  lemma {:induction false} AuthConcat(a: seq<Observation>, b: seq<Observation>)
    ensures AuthOf(a + b) == AuthOf(a) + AuthOf(b)
    decreases |b|
  {
    hide IsAuth;
    if b == [] {
      assert a + b == a;
    } else {
      assert (a + b)[..|a + b| - 1] == a + b[..|b| - 1];
      AuthConcat(a, b[..|b| - 1]);
    }
  }

  lemma {:induction false} AuthMembers(window: seq<Observation>, o: Observation)
    ensures o in AuthOf(window) <==> o in window && IsAuth(o)
    ensures AuthOf([o]) == if IsAuth(o) then [o] else []
    decreases |window|
  {
    hide IsAuth;
    assert [o][..0] == [];
    if window != [] {
      AuthMembers(window[..|window| - 1], o);
      assert window == window[..|window| - 1] + [window[|window| - 1]];
    }
  }

  function Failures(obs: seq<Observation>): (r: nat)
    ensures r <= |obs|
  {
    if obs == [] then 0 else Failures(obs[..|obs| - 1]) + if IsFailure(obs[|obs| - 1]) then 1 else 0
  }

  // Observations i..j all failed.
  predicate IsRun(obs: seq<Observation>, i: int, j: int) {
    0 <= i <= j <= |obs| && forall k :: i <= k < j ==> IsFailure(obs[k])
  }

  // The longest stretch of consecutive failures.
  ghost predicate IsLongestRun(obs: seq<Observation>, r: nat) {
    && (exists i, j :: IsRun(obs, i, j) && j - i == r)
    && (forall i, j :: IsRun(obs, i, j) ==> j - i <= r)
  }

  // The failures lie next to each other.
  predicate IsContiguous(obs: seq<Observation>) {
    forall i, j, k :: 0 <= i < j < k < |obs| && IsFailure(obs[i]) && IsFailure(obs[k]) ==> IsFailure(obs[j])
  }

  method LongestRun(obs: seq<Observation>) returns (longest: nat)
    ensures IsLongestRun(obs, longest)
  {
    longest := 0;
    var current := 0;
    ghost var i, j := 0, 0;
    for n := 0 to |obs|
      invariant current <= n && IsRun(obs, n - current, n)
      invariant current < n ==> !IsFailure(obs[n - current - 1])
      invariant IsRun(obs, i, j) && j - i == longest
      invariant forall a, b :: IsRun(obs, a, b) && b <= n ==> b - a <= longest
    {
      if IsFailure(obs[n]) {
        current := current + 1;
        if current > longest {
          longest, i, j := current, n + 1 - current, n + 1;
        }
      } else {
        current := 0;
      }
    }
  }

  lemma {:induction false} FailuresConcat(a: seq<Observation>, b: seq<Observation>)
    ensures Failures(a + b) == Failures(a) + Failures(b)
    decreases |b|
  {
    if b == [] {
      assert a + b == a;
    } else {
      assert (a + b)[..|a + b| - 1] == a + b[..|b| - 1];
      FailuresConcat(a, b[..|b| - 1]);
    }
  }

  lemma {:induction false} AllFailed(obs: seq<Observation>)
    ensures Failures(obs) == |obs| <==> IsRun(obs, 0, |obs|)
    decreases |obs|
  {
    if obs != [] {
      var front := obs[..|obs| - 1];
      AllFailed(front);
      if IsRun(front, 0, |front|) && IsFailure(obs[|obs| - 1]) {
        assert IsRun(obs, 0, |obs|);
      }
      if IsRun(obs, 0, |obs|) {
        assert IsFailure(obs[|obs| - 1]);
        forall k | 0 <= k < |front| ensures IsFailure(front[k]) { assert IsFailure(obs[k]); }
      }
    }
  }

  lemma {:induction false} NoneFailed(obs: seq<Observation>)
    ensures Failures(obs) == 0 <==> forall k :: 0 <= k < |obs| ==> !IsFailure(obs[k])
    decreases |obs|
  {
    if obs != [] {
      var front := obs[..|obs| - 1];
      NoneFailed(front);
      forall k | 0 <= k < |front| ensures front[k] == obs[k] {}
      if Failures(obs) == 0 {
        forall k | 0 <= k < |obs| ensures !IsFailure(obs[k]) {
          if k < |front| { assert !IsFailure(front[k]); }
        }
      }
    }
  }

  // The failures before, in and after a stretch.
  lemma FailuresSplit(obs: seq<Observation>, i: nat, j: nat)
    requires i <= j <= |obs|
    ensures Failures(obs) == Failures(obs[..i]) + Failures(obs[i..j]) + Failures(obs[j..])
  {
    hide Failures;
    var a, b, c := obs[..i], obs[i..j], obs[j..];
    FailuresConcat(a, b);
    FailuresConcat(a + b, c);
    assert a + b + c == obs;
  }

  // Theorem: the longest run holds at most all failures, and all of them exactly when they are
  // contiguous.
  lemma RunAgainstFailures(obs: seq<Observation>, r: nat)
    requires IsLongestRun(obs, r)
    ensures r <= Failures(obs)
    ensures r == Failures(obs) <==> IsContiguous(obs)
  {
    var i, j :| IsRun(obs, i, j) && j - i == r;
    FailuresSplit(obs, i, j);
    assert IsRun(obs[i..j], 0, r);
    AllFailed(obs[i..j]);
    NoneFailed(obs[..i]);
    NoneFailed(obs[j..]);
    if r == Failures(obs) {
      RunHasAll(obs, i, j);
    } else if IsContiguous(obs) {
      ContiguousIsRun(obs, r);
    }
  }

  lemma RunHasAll(obs: seq<Observation>, i: nat, j: nat)
    requires IsRun(obs, i, j)
    requires (forall k :: 0 <= k < |obs[..i]| ==> !IsFailure(obs[..i][k])) && (forall k :: 0 <= k < |obs[j..]| ==> !IsFailure(obs[j..][k]))
    ensures IsContiguous(obs)
  {
    forall k | 0 <= k < i ensures !IsFailure(obs[k]) { assert obs[..i][k] == obs[k]; }
    forall k | j <= k < |obs| ensures !IsFailure(obs[k]) { assert obs[j..][k - j] == obs[k]; }
    forall a, b, c | 0 <= a < b < c < |obs| && IsFailure(obs[a]) && IsFailure(obs[c]) ensures IsFailure(obs[b]) {
      assert i <= a && c < j;
    }
  }

  // Contiguous failures are one run, from the first to the last.
  lemma ContiguousIsRun(obs: seq<Observation>, r: nat)
    requires IsContiguous(obs) && IsLongestRun(obs, r)
    ensures Failures(obs) <= r
  {
    hide Failures;
    var first, last := FirstFailure(obs), AfterLastFailure(obs);
    if first < last {
      assert IsRun(obs, first, last);
      FailuresSplit(obs, first, last);
      NoneFailed(obs[..first]);
      NoneFailed(obs[last..]);
    } else {
      NoneFailed(obs);
    }
  }

  function FirstFailure(obs: seq<Observation>): (r: nat)
    ensures r <= |obs|
    ensures forall k :: 0 <= k < r ==> !IsFailure(obs[k])
    ensures r < |obs| ==> IsFailure(obs[r])
  {
    if obs == [] || IsFailure(obs[0]) then 0 else FirstFailure(obs[1..]) + 1
  }

  function AfterLastFailure(obs: seq<Observation>): (r: nat)
    ensures r <= |obs|
    ensures forall k :: r <= k < |obs| ==> !IsFailure(obs[k])
    ensures r > 0 ==> IsFailure(obs[r - 1])
  {
    if obs == [] || IsFailure(obs[|obs| - 1]) then |obs| else AfterLastFailure(obs[..|obs| - 1])
  }

  // ---- Rates -----------------------------------------------------------------------------------

  function Ratio(a: nat, n: nat): real
    requires n > 0
  {
    a as real / n as real
  }

  lemma RatioMeans(a: nat, n: nat)
    requires n > 0
    ensures Ratio(a, n) * (n as real) == a as real
  {
  }

  lemma Ratios(a: nat, b: nat, n: nat)
    requires a <= b <= n && n > 0
    ensures 0.0 <= Ratio(a, n) <= Ratio(b, n) <= 1.0
    ensures Ratio(a, n) == Ratio(b, n) <==> a == b
    ensures Ratio(b, n) == 1.0 <==> b == n
  {
    RatioEnds(n);
    hide Ratio;
    RatioOrder(0, a, n);
    RatioOrder(a, b, n);
    RatioOrder(b, n, n);
  }

  lemma RatioEnds(n: nat)
    requires n > 0
    ensures Ratio(0, n) == 0.0 && Ratio(n, n) == 1.0
  {
  }

  lemma RatioOrder(a: nat, b: nat, n: nat)
    requires n > 0
    ensures Ratio(a, n) < Ratio(b, n) <==> a < b
    ensures Ratio(a, n) == Ratio(b, n) <==> a == b
  {
  }

  method AuthFeatures(window: seq<Observation>) returns (rate: real, burst: real)
    requires window != []
    ensures 0.0 <= burst <= rate <= 1.0
    ensures burst == rate <==> IsContiguous(AuthOf(window))
    ensures AuthOf(window) != [] ==> rate == Ratio(Failures(AuthOf(window)), |AuthOf(window)|)
    ensures AuthOf(window) != [] ==> exists r :: IsLongestRun(AuthOf(window), r) && burst == Ratio(r, |AuthOf(window)|)
  {
    hide Ratio, IsContiguous, IsLongestRun;
    var auth := SelectAuth(window);
    if auth == [] {
      NothingIsContiguous();
      return 0.0, 0.0;
    }
    var failed := CountFailures(auth);
    var longest := LongestRun(auth);
    RunAgainstFailures(auth, longest);
    Ratios(longest, failed, |auth|);
    rate, burst := Ratio(failed, |auth|), Ratio(longest, |auth|);
  }

  lemma NothingIsContiguous()
    ensures IsContiguous([])
  {
  }

  method SelectAuth(window: seq<Observation>) returns (auth: seq<Observation>)
    ensures auth == AuthOf(window)
  {
    auth := [];
    for n := 0 to |window|
      invariant auth == AuthOf(window[..n])
    {
      assert window[..n + 1][..n] == window[..n];
      if IsAuth(window[n]) {
        auth := auth + [window[n]];
      }
    }
    assert window[..|window|] == window;
  }

  method CountFailures(obs: seq<Observation>) returns (failed: nat)
    ensures failed == Failures(obs)
  {
    failed := 0;
    for n := 0 to |obs|
      invariant failed == Failures(obs[..n])
    {
      assert obs[..n + 1][..n] == obs[..n];
      if IsFailure(obs[n]) {
        failed := failed + 1;
      }
    }
    assert obs[..|obs|] == obs;
  }

  // ---- Endpoints ---------------------------------------------------------------------------------

  function Endpoints(window: seq<Observation>): set<string> {
    set o | o in window :: o.endpoint
  }

  function Switches(window: seq<Observation>): nat {
    if |window| < 2 then 0
    else Switches(window[..|window| - 1]) + if window[|window| - 1].endpoint != window[|window| - 2].endpoint then 1 else 0
  }

  // Two windows one after the other switch as often as each, and once more where they meet unless
  // they meet at one endpoint.
  lemma {:induction false} SwitchesConcat(a: seq<Observation>, b: seq<Observation>)
    requires a != [] && b != []
    ensures Switches(a + b) == Switches(a) + Switches(b) + One(a[|a| - 1].endpoint != b[0].endpoint)
    decreases |b|
  {
    var front := b[..|b| - 1];
    assert (a + b)[..|a + b| - 1] == a + front;
    if front == [] {
      assert a + front == a;
    } else {
      SwitchesConcat(a, front);
    }
  }

  lemma EndpointsGrow(window: seq<Observation>, o: Observation)
    ensures Endpoints(window + [o]) == Endpoints(window) + {o.endpoint}
  {
  }

  // Theorem: a window visits at most one endpoint more than it switches.
  lemma {:induction false} DistinctAgainstSwitches(window: seq<Observation>)
    requires window != []
    ensures |Endpoints(window)| <= Switches(window) + 1
    decreases |window|
  {
    var front, last := window[..|window| - 1], window[|window| - 1];
    assert window == front + [last];
    EndpointsGrow(front, last);
    if front == [] {
      assert Endpoints(window) == {last.endpoint};
    } else {
      DistinctAgainstSwitches(front);
      if last.endpoint == front[|front| - 1].endpoint {
        assert last.endpoint in Endpoints(front);
        assert Endpoints(window) == Endpoints(front);
      }
    }
  }

  method CountRepeated(window: seq<Observation>) returns (repeated: nat)
    ensures repeated + |Endpoints(window)| == |window|
  {
    repeated := 0;
    var seen: set<string> := {};
    assert Endpoints(window[..0]) == {};
    for n := 0 to |window|
      invariant seen == Endpoints(window[..n])
      invariant repeated + |seen| == n
    {
      hide Endpoints;
      assert window[..n + 1] == window[..n] + [window[n]];
      EndpointsGrow(window[..n], window[n]);
      if window[n].endpoint in seen {
        repeated := repeated + 1;
        assert seen + {window[n].endpoint} == seen;
      }
      seen := seen + {window[n].endpoint};
    }
    assert window[..|window|] == window;
  }

  method CountSwitches(window: seq<Observation>) returns (switches: nat)
    requires window != []
    ensures switches == Switches(window) <= |window| - 1
  {
    switches := 0;
    for i := 1 to |window|
      invariant switches == Switches(window[..i]) <= i - 1
    {
      assert window[..i + 1][..i] == window[..i];
      if window[i].endpoint != window[i - 1].endpoint {
        switches := switches + 1;
      }
    }
    assert window[..|window|] == window;
  }

  method EndpointFeatures(window: seq<Observation>) returns (switchRate: real, repeatedRate: real)
    requires window != []
    ensures 0.0 <= switchRate <= 1.0 && 0.0 <= repeatedRate < 1.0
    ensures switchRate == if |window| >= 2 then Ratio(Switches(window), |window| - 1) else 0.0
    ensures |Endpoints(window)| <= |window| && repeatedRate == Ratio(|window| - |Endpoints(window)|, |window|)
    ensures |window| - |Endpoints(window)| + Switches(window) + 1 >= |window|
  {
    hide Ratio, Endpoints, Switches;
    var n := |window|;
    var switches := CountSwitches(window);
    switchRate := 0.0;
    if n >= 2 {
      switchRate := Ratio(switches, n - 1);
      Ratios(0, switches, n - 1);
    }
    var repeated := CountRepeated(window);
    repeatedRate := Ratio(repeated, n);
    DistinctAgainstSwitches(window);
    SomeEndpoint(window);
    Ratios(0, repeated, n);
  }

  lemma SomeEndpoint(window: seq<Observation>)
    requires window != []
    ensures |Endpoints(window)| > 0
  {
    assert window[0].endpoint in Endpoints(window);
  }
}
