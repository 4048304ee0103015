/** The count of pending connections, which the listener checks, reserves and hands over to the
    connection threads; each atomic operation is a step of its own. The server runs one listener;
    the bound is stated for any number of them. */
module Listener {

  const MAX_PENDING: int := 50

  /** Where a listener is: before the check, past it, or holding a reservation. */
  datatype Place = Waiting | Admitted | Reserved

  datatype State = State(counter: int, live: nat, listeners: seq<Place>)

  datatype Step =
    | Check(i: nat)
    | Reserve(i: nat)
    | ThreadStarts(i: nat)
    | ThreadFails(i: nat)
    | ThreadEnds

  predicate At(st: State, i: nat, place: Place) {
    i < |st.listeners| && st.listeners[i] == place
  }

  /** A step that is not possible changes nothing. */
  function Next(st: State, step: Step): State {
    match step
    case Check(i) =>
      if At(st, i, Waiting) && st.counter < MAX_PENDING then st.(listeners := st.listeners[i := Admitted]) else st
    case Reserve(i) =>
      if At(st, i, Admitted) then st.(counter := st.counter + 1, listeners := st.listeners[i := Reserved]) else st
    case ThreadStarts(i) =>
      if At(st, i, Reserved) then st.(live := st.live + 1, listeners := st.listeners[i := Waiting]) else st
    case ThreadFails(i) =>
      if At(st, i, Reserved) then st.(counter := st.counter - 1, listeners := st.listeners[i := Waiting]) else st
    case ThreadEnds =>
      if st.live > 0 then st.(counter := st.counter - 1, live := st.live - 1) else st
  }

  function Run(st: State, steps: seq<Step>): State {
    if steps == [] then st else Next(Run(st, steps[..|steps| - 1]), steps[|steps| - 1])
  }

  function Start(n: nat): State {
    State(0, 0, seq(n, i => Waiting))
  }

  function Count(listeners: seq<Place>, place: Place): nat {
    if listeners == [] then 0
    else Count(listeners[..|listeners| - 1], place) + if listeners[|listeners| - 1] == place then 1 else 0
  }

  lemma {:induction false} CountUpdate(s: seq<Place>, i: nat, to: Place, place: Place)
    requires i < |s|
    ensures Count(s[i := to], place)
              == Count(s, place) - (if s[i] == place then 1 else 0) + (if to == place then 1 else 0)
    decreases |s|
  {
    var front := s[..|s| - 1];
    if i == |s| - 1 {
      assert s[i := to][..|s| - 1] == front;
    } else {
      assert s[i := to][..|s| - 1] == front[i := to];
      CountUpdate(front, i, to, place);
    }
  }

  lemma {:induction false} CountAtMost(s: seq<Place>)
    ensures Count(s, Admitted) + Count(s, Reserved) <= |s|
    decreases |s|
  {
    if s != [] { CountAtMost(s[..|s| - 1]); }
  }

  ghost predicate Balanced(st: State) {
    && st.counter == st.live + Count(st.listeners, Reserved)
    && st.counter + Count(st.listeners, Admitted) <= MAX_PENDING - 1 + |st.listeners|
  }

  lemma StepKeepsBalance(st: State, step: Step)
    requires Balanced(st) && |st.listeners| >= 1
    ensures Balanced(Next(st, step)) && |Next(st, step).listeners| == |st.listeners|
  {
    if !step.ThreadEnds? && step.i < |st.listeners| {
      var to := if step.Check? then Admitted else if step.Reserve? then Reserved else Waiting;
      CountUpdate(st.listeners, step.i, to, Admitted);
      CountUpdate(st.listeners, step.i, to, Reserved);
      CountAtMost(st.listeners[step.i := to]);
    }
  }

  lemma {:induction false} StartBalanced(n: nat)
    ensures Count(Start(n).listeners, Admitted) == Count(Start(n).listeners, Reserved) == 0
  {
    if n > 0 {
      assert Start(n).listeners[..n - 1] == Start(n - 1).listeners;
      StartBalanced(n - 1);
    }
  }

  /** In every interleaving the counter is the number of live connection threads plus the
      reservations in progress, and it is at most 50 if there is one listener. */
  lemma {:induction false} CounterIsExact(n: nat, steps: seq<Step>)
    requires n >= 1
    ensures var st := Run(Start(n), steps);
            && |st.listeners| == n && Balanced(st)
            && 0 <= st.counter <= MAX_PENDING - 1 + n
    decreases |steps|
  {
    if steps == [] {
      StartBalanced(n);
    } else {
      CounterIsExact(n, steps[..|steps| - 1]);
      StepKeepsBalance(Run(Start(n), steps[..|steps| - 1]), steps[|steps| - 1]);
    }
  }

  // ---- Connections come and go ----

  /** The places of the other listeners are as they were, and this one's is `place`. */
  predicate Moved(st: State, st': State, i: nat, place: Place) {
    && |st'.listeners| == |st.listeners| && At(st', i, place)
    && forall j | 0 <= j < |st.listeners| && j != i :: st'.listeners[j] == st.listeners[j]
  }

  /** Below the limit a waiting listener admits a connection, at the limit it does not; a reservation
      counts at once, and is given back if no thread comes of it, or when the thread ends. */
  lemma StepEffects(st: State, i: nat)
    requires i < |st.listeners|
    ensures var st' := Next(st, Check(i));
            if st.listeners[i] == Waiting && st.counter < 50
            then Moved(st, st', i, Admitted) && st'.counter == st.counter && st'.live == st.live else st' == st
    ensures var st' := Next(st, Reserve(i));
            if st.listeners[i] == Admitted
            then Moved(st, st', i, Reserved) && st'.counter == st.counter + 1 && st'.live == st.live else st' == st
    ensures var st' := Next(st, ThreadStarts(i));
            if st.listeners[i] == Reserved
            then Moved(st, st', i, Waiting) && st'.counter == st.counter && st'.live == st.live + 1 else st' == st
    ensures var st' := Next(st, ThreadFails(i));
            if st.listeners[i] == Reserved
            then Moved(st, st', i, Waiting) && st'.counter == st.counter - 1 && st'.live == st.live else st' == st
    ensures st.live > 0 ==> Next(st, ThreadEnds) == State(st.counter - 1, st.live - 1, st.listeners)
    ensures st.live == 0 ==> Next(st, ThreadEnds) == st
  {
  }

  /** When a listener has to wait at the limit, the end of one thread is enough for it to go on. */
  lemma EndLetsIn(st: State, i: nat)
    requires At(st, i, Waiting) && st.live > 0 && st.counter == MAX_PENDING
    ensures At(Next(st, Check(i)), i, Waiting) && At(Next(Next(st, ThreadEnds), Check(i)), i, Admitted)
  {
    StepEffects(st, i);
  }

  // ---- The bound is reached ----

  lemma RunMore(st: State, steps: seq<Step>, step: Step)
    ensures Run(st, steps + [step]) == Next(Run(st, steps), step)
  {
    assert (steps + [step])[..|steps|] == steps;
  }

  /** One listener serves `k` connections that stay. */
  lemma {:induction false} Fill(n: nat, k: nat) returns (steps: seq<Step>)
    requires n >= 1 && k < MAX_PENDING
    ensures Run(Start(n), steps) == State(k, k, Start(n).listeners)
  {
    if k == 0 {
      steps := [];
    } else {
      var front := Fill(n, k - 1);
      steps := front + [Check(0)] + [Reserve(0)] + [ThreadStarts(0)];
      RunMore(Start(n), front, Check(0));
      RunMore(Start(n), front + [Check(0)], Reserve(0));
      RunMore(Start(n), front + [Check(0)] + [Reserve(0)], ThreadStarts(0));
      assert Start(n).listeners[0 := Admitted][0 := Reserved][0 := Waiting] == Start(n).listeners;
    }
  }

  function Places(n: nat, reserved: nat, admitted: nat): seq<Place> {
    seq(n, i => if i < reserved then Reserved else if i < admitted then Admitted else Waiting)
  }

  lemma {:induction false} AdmitAll(n: nat, k: nat) returns (steps: seq<Step>)
    requires n >= 1 && k <= n
    ensures Run(Start(n), steps) == State(MAX_PENDING - 1, MAX_PENDING - 1, Places(n, 0, k))
  {
    if k == 0 {
      steps := Fill(n, MAX_PENDING - 1);
      assert Start(n).listeners == Places(n, 0, 0);
    } else {
      var front := AdmitAll(n, k - 1);
      steps := front + [Check(k - 1)];
      RunMore(Start(n), front, Check(k - 1));
      assert Places(n, 0, k - 1)[k - 1 := Admitted] == Places(n, 0, k);
    }
  }

  lemma {:induction false} ReserveAll(n: nat, k: nat) returns (steps: seq<Step>)
    requires n >= 1 && k <= n
    ensures Run(Start(n), steps) == State(MAX_PENDING - 1 + k, MAX_PENDING - 1, Places(n, k, n))
  {
    if k == 0 {
      steps := AdmitAll(n, n);
    } else {
      var front := ReserveAll(n, k - 1);
      steps := front + [Reserve(k - 1)];
      RunMore(Start(n), front, Reserve(k - 1));
      assert Places(n, k - 1, n)[k - 1 := Reserved] == Places(n, k, n);
    }
  }

  /** No smaller bound holds: some interleaving of `n` listeners reaches 49 + `n`. */
  lemma BoundIsReached(n: nat) returns (steps: seq<Step>)
    requires n >= 1
    ensures Run(Start(n), steps).counter == MAX_PENDING - 1 + n
  {
    steps := ReserveAll(n, n);
  }
}
