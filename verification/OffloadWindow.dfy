// The window map of the asynchronous offload handler
// (swift/callbacks/activation_cpu_offload.py:275-284): layer_window_map[g] is the
// layer at whose forward commit the device buffer of group g is freed, and at whose
// backward commit group g is copied back.
//
// L is the number of layers (groups committed in one pass), N the number of groups
// that are offloaded.  The source asks for N <= L (line 257).
module OffloadWindow {
  import opened Arithmetic

  function Min(a: int, b: int): int {
    if a <= b then a else b
  }

  function Max(a: int, b: int): int {
    if a <= b then b else a
  }

  // Closed form of layer_window_map[i].
  function Window(L: nat, N: nat, i: nat): int
    requires N > 0
  {
    L / N * (i + 1) - 1 + Min(i + 1, L % N)
  }

  function WindowMap(L: nat, N: nat): map<int, int>
  {
    map i: int | 0 <= i < N :: Window(L, N, i)
  }

  lemma {:induction false} WindowStep(L: nat, N: nat, i: nat)
    requires N > 0
    ensures Window(L, N, i) == L / N * (i + 1) - 1 + if i < L % N then i + 1 else Min(i, L % N)
    ensures Min(i + 1, L % N) == if i < L % N then i + 1 else Min(i, L % N)
  {
  }

  // The constructor's loop, with its running `constant`.
  method BuildWindowMap(L: nat, N: nat) returns (window: map<int, int>)
    ensures window == WindowMap(L, N)
  {
    hide Window, Min;
    window := map[];
    var constant := 0;
    assert N > 0 ==> Min(0, L % N) == 0 by {
      NoConstant(L, N);
    }
    for i := 0 to N
      invariant N > 0 ==> constant == Min(i, L % N)
      invariant window == map j: int | 0 <= j < i :: Window(L, N, j)
    {
      WindowStep(L, N, i);
      var w := L / N * (i + 1) - 1;
      if i < L % N {
        w := w + i + 1;
        constant := i + 1;
      } else {
        w := w + constant;
      }
      window := window[i := w];
    }
  }

  lemma {:induction false} NoConstant(L: nat, N: nat)
    ensures N > 0 ==> Min(0, L % N) == 0
  {
  }

  // Consecutive windows are L / N or L / N + 1 layers apart, the wider ones first.
  lemma {:induction false} WindowGap(L: nat, N: nat, i: nat)
    requires N > 0
    ensures Window(L, N, i + 1) == Window(L, N, i) + L / N + (if i + 1 < L % N then 1 else 0)
  {
    var q := L / N;
    assert q * (i + 2) == q * (i + 1) + q;
  }

  // The first window is never empty.
  lemma {:induction false} WindowFirst(L: nat, N: nat)
    requires 1 <= N <= L
    ensures Window(L, N, 0) >= 0
    ensures N < L ==> Window(L, N, 0) >= 1
    ensures L / N >= 1
  {
    QuotientPositive(L, N);
  }

  lemma {:induction false} QuotientPositive(L: nat, N: nat)
    requires 1 <= N <= L
    ensures L / N >= 1
    ensures N < L ==> L / N >= 2 || L % N >= 1
  {
    assert L == N * (L / N) + L % N;
  }

  // Group g is never freed, nor copied back, before layer g has run; when some layer is
  // left out of the offload (N < L) it is at least one layer later.
  lemma {:induction false} WindowAfterGroup(L: nat, N: nat, g: nat)
    requires 1 <= N <= L
    ensures Window(L, N, g) >= g
    ensures N < L ==> Window(L, N, g) >= g + 1
  {
    WindowFirst(L, N);
    if g > 0 {
      WindowAfterGroup(L, N, g - 1);
      WindowGap(L, N, g - 1);
    }
  }

  lemma {:induction false} WindowIncreasing(L: nat, N: nat, i: nat, j: nat)
    requires 1 <= N <= L
    requires i < j
    ensures Window(L, N, i) < Window(L, N, j)
    decreases j
  {
    QuotientPositive(L, N);
    WindowGap(L, N, j - 1);
    if i < j - 1 {
      WindowIncreasing(L, N, i, j - 1);
    }
  }

  // The last window closes at the last layer.
  lemma {:induction false} WindowLast(L: nat, N: nat)
    requires 1 <= N <= L
    ensures Window(L, N, N - 1) == L - 1
  {
    assert L == N * (L / N) + L % N;
    assert L / N * N == N * (L / N);
  }

  // How many groups have been passed when layer c starts its forward computation:
  // the value of offloaded_group_count, one layer at a time.
  function Passed(L: nat, N: nat, c: nat): nat
    requires N > 0
  {
    if c == 0 then 0
    else
      var p := Passed(L, N, c - 1);
      if p < N && Window(L, N, p) == c - 1 then p + 1 else p
  }

  // ... which is exactly the number of windows that close before layer c.
  lemma {:induction false} PassedIsWindowCount(L: nat, N: nat, c: nat)
    requires 1 <= N <= L
    ensures Passed(L, N, c) <= N
    ensures Passed(L, N, c) <= c
    ensures forall g: nat :: g < N ==> (g < Passed(L, N, c) <==> Window(L, N, g) < c)
  {
    if c == 0 {
      forall g: nat | g < N ensures Window(L, N, g) >= 0 { WindowAfterGroup(L, N, g); }
    } else {
      PassedIsWindowCount(L, N, c - 1);
      var p := Passed(L, N, c - 1);
      if p < N {
        WindowAfterGroup(L, N, p);
      }
      forall g: nat | g < N
        ensures g < Passed(L, N, c) <==> Window(L, N, g) < c
      {
        if g < p {
        } else if p < g {
          WindowIncreasing(L, N, p, g);
        }
      }
    }
  }

  // All windows have closed at the end of the forward pass.
  lemma {:induction false} PassedAll(L: nat, N: nat)
    requires 1 <= N <= L
    ensures Passed(L, N, L) == N
  {
    PassedIsWindowCount(L, N, L);
    WindowLast(L, N);
  }

  // The forward commit at which group g is copied to the host.
  function SendAt(L: nat, N: nat, g: nat): int
    requires N > 0
  {
    if g == 0 then 0 else Window(L, N, g - 1)
  }

  // Whether group g's tensors exist by then.
  predicate Sends(L: nat, N: nat, g: nat)
    requires N > 0
  {
    SendAt(L, N, g) >= g
  }

  // The schedule sends every group after its last push exactly when some layer is left
  // out of the offload (or there is only one group).
  lemma {:induction false} SendsAfterPushes(L: nat, N: nat)
    requires 1 <= N <= L
    ensures (forall g: nat :: g < N ==> Sends(L, N, g)) <==> (N < L || N == 1)
    ensures N == L ==> forall g: nat :: g < N ==> (Sends(L, N, g) <==> g == 0)
  {
    if N < L {
      forall g: nat | g < N ensures Sends(L, N, g) {
        if g > 0 { WindowAfterGroup(L, N, g - 1); }
      }
    } else {
      forall g: nat | g < N ensures Window(L, N, g) == g {
        WholeModelWindow(L, g);
      }
      forall g: nat | g < N ensures Sends(L, N, g) <==> g == 0 {
      }
      if N > 1 {
        assert !Sends(L, N, 1);
      }
    }
  }

  lemma {:induction false} WholeModelWindow(L: nat, g: nat)
    requires L > 0
    ensures Window(L, L, g) == g
  {
    assert L / L == 1 && L % L == 0 by { assert L == L * 1 + 0; Division(L, 1, 0, L); }
  }

  // With the installed N = L - 1 (lines 567-572) every window is one layer wide.
  lemma {:induction false} InstalledWindow(L: nat, g: nat)
    requires L >= 3 && g < L - 1
    ensures Window(L, L - 1, g) == g + 1
  {
    Division(L, 1, 1, L - 1);
  }
}
