/**
  The capture device handle: coercion of the source identifier, the bounded retry when
  opening it, guarded frame reads and release. `cv2.VideoCapture` is abstracted to a handle
  whose `isOpened()` answers come from the caller, one per attempt.
 */
module VideoSources {
  import opened Wrappers
  import opened Json

  /** How many times the device is tried before giving up. */
  const MaxAttempts: nat := 3

  /** `int(s)` for a string of decimal digits (leading zeros allowed). Without a leading zero
      the string is the decimal spelling of its value, so only "0" and zero-padded strings
      name an index in more than one way. */
  function ParseDecimal(s: string): (r: nat)
    requires forall i :: 0 <= i < |s| ==> '0' <= s[i] <= '9'
    ensures s != [] && s[0] != '0' ==> r > 0 && DecimalString(r) == s
  {
    if s == [] then 0
    else
      var init, last := s[..|s| - 1], s[|s| - 1];
      var r := 10 * ParseDecimal(init) + (last - '0') as nat;
      if |s| > 1 && s[0] != '0' then
        assert init[0] == s[0] && s == init + [last];
        DecimalStringStep(ParseDecimal(init), (last - '0') as nat);
        r
      else r
  }

  /** Appending a digit to the spelling of a positive number spells ten times it plus that
      digit. */
  lemma DecimalStringStep(m: nat, d: nat)
    requires m > 0 && d < 10
    ensures DecimalString(10 * m + d) == DecimalString(m) + [('0' as int + d) as char]
  {
    assert (10 * m + d) / 10 == m && (10 * m + d) % 10 == d;
  }

  /** Python's `str.isdigit()`, restricted to the ASCII digits. */
  function IsDigits(s: string): (b: bool)
    // `"".isdigit()` is false, and only digits pass.
    ensures b ==> s != [] && forall i :: 0 <= i < |s| ==> '0' <= s[i] <= '9'
    // A digit string without a leading zero is the decimal spelling of the index it denotes.
    ensures b && (s == "0" || s[0] != '0') ==> DecimalString(ParseDecimal(s)) == s
  {
    |s| > 0 && forall i :: 0 <= i < |s| ==> '0' <= s[i] <= '9'
  }

  /** The decimal spelling of a device index, as a user types it into the configuration. */
  function DecimalString(n: nat): string
  {
    if n < 10 then [('0' as int + n) as char]
    else DecimalString(n / 10) + [('0' as int + n % 10) as char]
  }

  /** Every device index, written in decimal, is a digit string that reads back as that index. */
  lemma {:induction false} DecimalRoundTrip(n: nat)
    ensures IsDigits(DecimalString(n))
    ensures ParseDecimal(DecimalString(n)) == n
  {
    if n >= 10 {
      DecimalRoundTrip(n / 10);
      var s := DecimalString(n);
      assert s[..|s| - 1] == DecimalString(n / 10);
    }
  }

  /** What is passed to `cv2.VideoCapture`: a device index, or the source value unchanged. */
  datatype CaptureTarget = DeviceIndex(index: nat) | AsGiven(source: Value)

  /** The coercion `_open_source` applies: only a string of digits becomes a device index. */
  function CaptureTargetOf(source: Value): (t: CaptureTarget)
    ensures t.DeviceIndex? <==> source.Str? && IsDigits(source.s)
    ensures t.AsGiven? ==> t.source == source
  {
    if source.Str? && IsDigits(source.s) then DeviceIndex(ParseDecimal(source.s)) else AsGiven(source)
  }

  /** A configured index such as "0" or "12" opens that camera index. */
  lemma IndexStringOpensIndex(n: nat)
    ensures CaptureTargetOf(Str(DecimalString(n))) == DeviceIndex(n)
  {
    DecimalRoundTrip(n);
  }

  /** Number of attempts the retry loop makes from attempt `k` on, given the `isOpened()`
      answer of each attempt: it stops at the first success or after `MaxAttempts`. */
  function AttemptsFrom(answers: seq<bool>, k: nat): (n: nat)
    requires k <= MaxAttempts <= |answers|
    ensures k <= n <= MaxAttempts
    ensures forall j :: k <= j < n - 1 ==> !answers[j]
    ensures n > k ==> (answers[n - 1] || n == MaxAttempts)
    ensures k < MaxAttempts ==> n > k
    decreases MaxAttempts - k
  {
    if k == MaxAttempts then k
    else if answers[k] then k + 1
    else AttemptsFrom(answers, k + 1)
  }

  /** Attempts made by a whole `_open_source` call: one more than the index of the first
      attempt whose handle reports opened, or `MaxAttempts` if none does. */
  function Attempts(answers: seq<bool>): (n: nat)
    requires MaxAttempts <= |answers|
    ensures 1 <= n <= MaxAttempts
    ensures forall j :: 0 <= j < n - 1 ==> !answers[j]
    ensures answers[n - 1] || n == MaxAttempts
  {
    AttemptsFrom(answers, 0)
  }

  /** The retry loop opens the source exactly when one of the first `MaxAttempts` attempts
      reports opened. */
  lemma OpensIffSomeAttemptOpens(answers: seq<bool>)
    requires MaxAttempts <= |answers|
    ensures answers[Attempts(answers) - 1] <==> exists j :: 0 <= j < MaxAttempts && answers[j]
  {
  }

  /** A `cv2.VideoCapture` object: what it was opened on and whether it reports opened. */
  datatype Handle = Handle(target: CaptureTarget, isOpen: bool)

  /** `IOError("Cannot open video source: ...")`. */
  datatype OpenError = CannotOpen(source: Value)

  class VideoSource {
    /** `self.source`: the value as configured, never the coerced one. */
    const source: Value
    /** `self.cap`. */
    var cap: Option<Handle>
    /** Argument of every `cv2.VideoCapture(...)` call made so far, in order. */
    var openCalls: seq<CaptureTarget>
    /** Number of 0.5 s waits made so far. */
    var waits: nat
    /** Number of `cap.release()` calls made so far. */
    var releases: nat

    /** The field set-up of `__init__`; `__init__` then calls `OpenSource`. */
    constructor (source: Value)
      ensures this.source == source && cap == None
      ensures openCalls == [] && waits == 0 && releases == 0
    {
      this.source := source;
      cap := None;
      openCalls := [];
      waits := 0;
      releases := 0;
    }

    /** `_open_source()`. `answers[k]` is what `isOpened()` reports on attempt `k`. Every attempt
        opens the same coerced target; every failed attempt, the last included, is followed by
        one wait; after `MaxAttempts` failures the error names the configured source. */
    method OpenSource(answers: seq<bool>) returns (r: Result<Handle, OpenError>)
      requires MaxAttempts <= |answers|
      modifies this
      ensures var n := Attempts(answers);
        && openCalls == old(openCalls) + seq(n, _ => CaptureTargetOf(source))
        && cap == Some(Handle(CaptureTargetOf(source), answers[n - 1]))
        && (answers[n - 1] ==> r == Success(cap.value) && waits == old(waits) + n - 1)
        && (!answers[n - 1] ==> r == Failure(CannotOpen(source)) && waits == old(waits) + MaxAttempts)
      ensures releases == old(releases)
    {
      var target := CaptureTargetOf(source);
      var attempt := 0;
      while attempt < MaxAttempts
        invariant attempt <= MaxAttempts
        invariant AttemptsFrom(answers, attempt) == Attempts(answers)
        invariant forall j :: 0 <= j < attempt ==> !answers[j]
        invariant openCalls == old(openCalls) + seq(attempt, _ => target)
        invariant waits == old(waits) + attempt
        invariant attempt > 0 ==> cap == Some(Handle(target, false))
        invariant releases == old(releases)
      {
        cap := Some(Handle(target, answers[attempt]));
        openCalls := openCalls + [target];
        if answers[attempt] {
          return Success(cap.value);
        }
        waits := waits + 1;
        attempt := attempt + 1;
      }
      r := Failure(CannotOpen(source));
    }

    /** `get_frame()`. `read` is what `cap.read()` returns if it is called. */
    method GetFrame<F>(read: (bool, Option<F>)) returns (ok: bool, frame: Option<F>)
      ensures cap.None? || !cap.value.isOpen ==> !ok && frame == None
      ensures cap.Some? && cap.value.isOpen ==> (ok, frame) == read
    {
      if cap.None? || !cap.value.isOpen {
        return false, None;
      }
      ok, frame := read.0, read.1;
    }

    /** `release()`: releases the handle if there is one; releasing leaves it closed. */
    method Release()
      modifies this
      ensures old(cap).None? ==> cap == None && releases == old(releases)
      ensures old(cap).Some? ==> cap == Some(old(cap).value.(isOpen := false)) && releases == old(releases) + 1
      ensures openCalls == old(openCalls) && waits == old(waits)
    {
      if cap.Some? {
        releases := releases + 1;
        cap := Some(cap.value.(isOpen := false));
      }
    }
  }

  /** A source whose first two attempts fail and third succeeds opens after two waits, and a
      source that never opens fails after three waits and a release is still safe. */
  method OpenScenarios(source: Value) returns (late: VideoSource, never: VideoSource)
    ensures late.cap == Some(Handle(CaptureTargetOf(source), true)) && late.waits == 2 && |late.openCalls| == 3
    ensures never.cap == Some(Handle(CaptureTargetOf(source), false)) && never.waits == 3
  {
    late := new VideoSource(source);
    var r := late.OpenSource([false, false, true]);
    never := new VideoSource(source);
    r := never.OpenSource([false, false, false]);
    assert r == Failure(CannotOpen(source));
    never.Release();
    var ok, frame := never.GetFrame<int>((true, Some(7)));
    assert !ok && frame == None;
  }
}
