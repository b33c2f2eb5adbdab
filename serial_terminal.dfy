/**
 * `SerialTerminal` (src/web/serialPseudoTerminal.ts): the pseudo-terminal
 * that bridges an esptool-js `Transport` to an editor terminal.
 *
 * The pure part is `writeOutput`'s normaliser. The lifecycle is a small
 * state machine, `Term`, given by pure step functions (`CloseStep`,
 * `Drain`, `OpenSpec`); the class `SerialTerminal` keeps the same state in
 * its fields and its methods are proved against those functions. Everything
 * the terminal emits (`onDidWrite`, `onDidClose`) and every call it makes
 * on the transport is recorded in a ghost log.
 */
module SerialPseudoTerminal {
  import opened Wrappers
  import opened Host
  import opened ByteCodec
  import opened JsNumbers

  // ---------------------------------------------------------------------------
  // writeOutput: message.replace(/\r/g, "").replace(/\n/g, "\r\n")
  // ---------------------------------------------------------------------------

  /** The first `replace`: every `\r` deleted. */
  function StripCarriageReturns(s: string): (r: string)
    ensures '\r' !in r
    ensures |r| <= |s|
  {
    if s == [] then ""
    else (if s[0] == '\r' then "" else [s[0]]) + StripCarriageReturns(s[1..])
  }

  /** Deleting `\r` keeps every other character, as often as it occurs. */
  lemma {:induction false} StripKeepsOthers(s: string)
    ensures forall c :: c != '\r' ==> multiset(StripCarriageReturns(s))[c] == multiset(s)[c]
  {
    if s != [] {
      StripKeepsOthers(s[1..]);
      assert s == [s[0]] + s[1..];
    }
  }

  /** The second `replace`: every `\n` becomes `\r\n`. */
  function ExpandLineFeeds(s: string): (r: string)
    ensures |r| >= |s|
    ensures |r| > 0 ==> r[0] != '\n'
  {
    if s == [] then ""
    else (if s[0] == '\n' then "\r\n" else [s[0]]) + ExpandLineFeeds(s[1..])
  }

  /**
   * The text `writeOutput(message)` fires on `onDidWrite`: terminal-ready,
   * and with its `\r` deleted it is the message with its `\r` deleted.
   */
  function NormalizeOutput(message: string): (r: string)
    ensures TerminalReady(r)
    ensures StripCarriageReturns(r) == StripCarriageReturns(message)
  {
    ExpandIsReady(StripCarriageReturns(message));
    StripOfExpand(StripCarriageReturns(message));
    ExpandLineFeeds(StripCarriageReturns(message))
  }

  /** At position `i` of `t`, a `\r` is followed by `\n` and a `\n` is preceded by `\r`. */
  predicate ReadyAt(t: string, i: nat)
    requires i < |t|
  {
    (t[i] == '\r' ==> i + 1 < |t| && t[i + 1] == '\n') &&
    (t[i] == '\n' ==> 0 < i && t[i - 1] == '\r')
  }

  /** Terminal-ready text: every `\r` is immediately followed by `\n`, and every `\n` immediately preceded by `\r`. */
  predicate TerminalReady(t: string)
  {
    forall i :: 0 <= i < |t| ==> ReadyAt(t, i)
  }

  lemma {:induction false} StripConcat(a: string, b: string)
    ensures StripCarriageReturns(a + b) == StripCarriageReturns(a) + StripCarriageReturns(b)
  {
    if a == [] {
      assert a + b == b;
    } else {
      var h: string := if a[0] == '\r' then "" else [a[0]];
      assert (a + b)[0] == a[0] && (a + b)[1..] == a[1..] + b;
      assert StripCarriageReturns(a + b) == h + StripCarriageReturns(a[1..] + b);
      StripConcat(a[1..], b);
      assert StripCarriageReturns(a) == h + StripCarriageReturns(a[1..]);
    }
  }

  lemma {:induction false} ExpandConcat(a: string, b: string)
    ensures ExpandLineFeeds(a + b) == ExpandLineFeeds(a) + ExpandLineFeeds(b)
  {
    if a == [] {
      assert a + b == b;
    } else {
      var h: string := if a[0] == '\n' then "\r\n" else [a[0]];
      assert (a + b)[0] == a[0] && (a + b)[1..] == a[1..] + b;
      assert ExpandLineFeeds(a + b) == h + ExpandLineFeeds(a[1..] + b);
      ExpandConcat(a[1..], b);
      assert ExpandLineFeeds(a) == h + ExpandLineFeeds(a[1..]);
    }
  }

  /** Normalising piecewise is normalising the whole. */
  lemma NormalizeConcat(a: string, b: string)
    ensures NormalizeOutput(a + b) == NormalizeOutput(a) + NormalizeOutput(b)
  {
    StripConcat(a, b);
    ExpandConcat(StripCarriageReturns(a), StripCarriageReturns(b));
  }

  /** "A\nB\rC" is shown as "A\r\nBC". */
  lemma NormalizeExample()
    ensures NormalizeOutput("A\nB\rC") == "A\r\nBC"
  {
  }

  lemma ReadyConcat(a: string, b: string)
    requires TerminalReady(a) && TerminalReady(b)
    requires |a| > 0 ==> a[|a| - 1] != '\r'
    requires |b| > 0 ==> b[0] != '\n'
    ensures TerminalReady(a + b)
  {
    var t := a + b;
    forall i | 0 <= i < |t|
      ensures ReadyAt(t, i)
    {
      if i < |a| {
        assert ReadyAt(a, i);
        assert t[i] == a[i];
        if i + 1 < |a| { assert t[i + 1] == a[i + 1]; }
        if 0 < i { assert t[i - 1] == a[i - 1]; }
      } else {
        var k := i - |a|;
        assert ReadyAt(b, k);
        assert t[i] == b[k];
        if i + 1 < |t| { assert t[i + 1] == b[k + 1]; }
        if 0 < k { assert t[i - 1] == b[k - 1]; }
      }
    }
  }

  lemma {:induction false} ExpandIsReady(x: string)
    requires '\r' !in x
    ensures TerminalReady(ExpandLineFeeds(x))
  {
    if x != [] {
      assert x[0] in x;
      assert forall c :: c in x[1..] ==> c in x;
      ExpandIsReady(x[1..]);
      var head: string := if x[0] == '\n' then "\r\n" else [x[0]];
      assert TerminalReady(head) by {
        assert forall i :: 0 <= i < |head| ==> ReadyAt(head, i);
      }
      ReadyConcat(head, ExpandLineFeeds(x[1..]));
    }
  }

  /** Stripping the expansion of one character other than `\r` gives that character. */
  lemma StripOfExpandedChar(c: char)
    requires c != '\r'
    ensures StripCarriageReturns(if c == '\n' then "\r\n" else [c]) == [c]
  {
    if c == '\n' {
      assert "\r\n"[1..] == "\n";
    }
  }

  lemma {:induction false} StripOfExpand(x: string)
    requires '\r' !in x
    ensures StripCarriageReturns(ExpandLineFeeds(x)) == x
  {
    if x != [] {
      var rest := x[1..];
      assert x[0] in x;
      assert '\r' !in rest by {
        assert forall c :: c in rest ==> c in x;
      }
      StripOfExpand(rest);
      var head: string := if x[0] == '\n' then "\r\n" else [x[0]];
      assert ExpandLineFeeds(x) == head + ExpandLineFeeds(rest);
      StripConcat(head, ExpandLineFeeds(rest));
      StripOfExpandedChar(x[0]);
      assert x == [x[0]] + rest;
    }
  }

  /** Normalising an already-normalised string changes nothing. */
  lemma NormalizeIdempotent(message: string)
    ensures NormalizeOutput(NormalizeOutput(message)) == NormalizeOutput(message)
  {
  }

  /** Terminal-ready text is the line-feed expansion of its `\r`-free content. */
  lemma {:induction false} ReadyIsExpansion(t: string)
    requires TerminalReady(t)
    ensures t == ExpandLineFeeds(StripCarriageReturns(t))
    decreases |t|
  {
    if t != [] {
      assert ReadyAt(t, 0);
      var k := if t[0] == '\r' then 2 else 1;
      var rest := t[k..];
      assert TerminalReady(rest) by {
        forall i | 0 <= i < |rest|
          ensures ReadyAt(rest, i)
        {
          assert ReadyAt(t, i + k);
          assert rest[i] == t[i + k];
          if i + 1 < |rest| { assert rest[i + 1] == t[i + k + 1]; }
          if 0 < i { assert rest[i - 1] == t[i + k - 1]; }
          if i == 0 && k == 2 { assert t[1] == '\n'; }
        }
      }
      ReadyIsExpansion(rest);
      assert t == t[..k] + rest;
      StripConcat(t[..k], rest);
      if k == 2 {
        assert t[..k] == "\r\n";
        ExpandConcat("\n", StripCarriageReturns(rest));
      } else {
        assert t[..k] == [t[0]];
        ExpandConcat([t[0]], StripCarriageReturns(rest));
      }
    }
  }

  /**
   * The two properties above determine the normaliser: a terminal-ready text
   * whose `\r`-free content is the message's is exactly `NormalizeOutput(message)`.
   */
  lemma NormalizeUnique(message: string, t: string)
    requires TerminalReady(t)
    requires StripCarriageReturns(t) == StripCarriageReturns(message)
    ensures t == NormalizeOutput(message)
  {
    ReadyIsExpansion(t);
  }

  /** `writeLine(m)` emits the normalisation of `m + "\n"`, which always ends in `\r\n`. */
  lemma WriteLineEndsWithCrLf(message: string)
    ensures var out := NormalizeOutput(message + "\n");
      |out| >= 2 && out[|out| - 2..] == "\r\n"
  {
    NormalizeConcat(message, "\n");
    assert NormalizeOutput("\n") == "\r\n";
  }

  // ---------------------------------------------------------------------------
  // The lifecycle state machine
  // ---------------------------------------------------------------------------

  /** A call the terminal makes on its transport. */
  datatype TransportCall =
    | Sleep(ms: nat)
    | SetDtr(level: bool)
    | RawRead
    | Connect(baudRate: nat)
    | WaitForUnlock(ms: nat)
    | Disconnect

  /**
   * The terminal's state: the `closed` flag, every `onDidWrite` event,
   * every `onDidClose` event, and every call made on the transport, in order.
   */
  datatype Term = Term(closed: bool, written: seq<string>, closeEvents: seq<int>, calls: seq<TransportCall>)

  /** The close event has fired, with code 0, exactly when `closed` is set. */
  predicate CloseDiscipline(t: Term)
  {
    t.closeEvents == if t.closed then [0] else []
  }

  /** `close()`: wait for the lock, disconnect; only if that succeeded and the terminal was open, mark it closed and fire code 0. */
  function CloseStep(t: Term, disconnect: Outcome<Thrown>): (u: Term)
    ensures u.calls == t.calls + [WaitForUnlock(1500), Disconnect]
    ensures u.written == t.written
    ensures u.closed == (t.closed || disconnect.Pass?)
    ensures u.closeEvents == t.closeEvents + (if !t.closed && disconnect.Pass? then [0] else [])
  {
    var u := t.(calls := t.calls + [WaitForUnlock(1500), Disconnect]);
    if disconnect.Fail? || t.closed then u
    else u.(closed := true, closeEvents := u.closeEvents + [0])
  }

  /** `close()` called once per outcome in `ds`, in order. */
  function CloseMany(t: Term, ds: seq<Outcome<Thrown>>): Term
    decreases |ds|
  {
    if ds == [] then t else CloseMany(CloseStep(t, ds[0]), ds[1..])
  }

  /** The transport calls `n` calls of `close()` make. */
  function CloseCalls(n: nat): seq<TransportCall>
  {
    if n == 0 then [] else [WaitForUnlock(1500), Disconnect] + CloseCalls(n - 1)
  }

  /**
   * Over any number of `close()` calls the close event fires at most once,
   * with code 0, and `closed` is set once any of them disconnected; but every
   * call disconnects the transport.
   */
  lemma {:induction false} RepeatedCloseFiresOnce(t: Term, ds: seq<Outcome<Thrown>>)
    requires CloseDiscipline(t)
    ensures var u := CloseMany(t, ds);
      && CloseDiscipline(u)
      && |u.closeEvents| <= 1
      && (u.closed <==> t.closed || Pass in ds)
      && u.calls == t.calls + CloseCalls(|ds|)
      && u.written == t.written
    decreases |ds|
  {
    if ds != [] {
      var t1 := CloseStep(t, ds[0]);
      RepeatedCloseFiresOnce(t1, ds[1..]);
      assert Pass in ds <==> ds[0] == Pass || Pass in ds[1..] by {
        assert ds == [ds[0]] + ds[1..];
      }
    }
  }

  /** What the environment does while `open()` drains the transport. */
  datatype HostEvent =
    | Read(value: Option<seq<byte>>)       // `rawRead()` resolves, possibly to `undefined`
    | ReadThrows(error: Thrown)            // `rawRead()` rejects
    | HostClose(disconnect: Outcome<Thrown>) // the host calls `close()` before the next read

  /** The terminal state after a step, and whether `open()` returned or rejected. */
  datatype OpenEnd = OpenEnd(term: Term, result: Outcome<Thrown>)

  /**
   * The drain loop `while (!this.closed) { ... }`. Once the script is used up
   * `rawRead()` resolves to `undefined`.
   */
  function Drain(t: Term, script: seq<HostEvent>): (r: OpenEnd)
    ensures r.result.Fail? ==> !r.term.closed && exists k :: 0 <= k < |script| && script[k] == ReadThrows(r.result.error)
    decreases |script|
  {
    if t.closed then OpenEnd(t, Pass)
    else
      var read := t.(calls := t.calls + [RawRead]);
      if script == [] then OpenEnd(read, Pass)
      else match script[0]
        case Read(None) => OpenEnd(read, Pass)
        case Read(Some(bytes)) =>
          Drain(read.(written := read.written + [NormalizeOutput(UInt8ArrayToString(bytes))]), script[1..])
        case ReadThrows(e) => OpenEnd(read, Fail(e))
        case HostClose(d) => Drain(CloseStep(t, d), script[1..])
  }

  /** The line `handleInput` writes before echoing the input. */
  const InputBanner: string := "Input data is:"

  const BannerPrefix: string := "Opened with baud rate: "

  /** The banner `open()` writes once the loop has ended: the fixed prefix, then the baud rate, which reads back. */
  function Banner(baudRate: nat): (b: string)
    ensures |b| > |BannerPrefix| && b[..|BannerPrefix|] == BannerPrefix
    ensures ParseInt(b[|BannerPrefix|..]) == Finite(baudRate)
  {
    ParseIntDecimal(baudRate);
    var b := BannerPrefix + DecimalString(baudRate);
    assert b[|BannerPrefix|..] == DecimalString(baudRate);
    b
  }

  /** `open()`: sleep, reset the device, drain, then connect at the configured baud rate and write the banner. */
  function OpenSpec(t: Term, baudRate: nat, script: seq<HostEvent>): (r: OpenEnd)
    ensures t.calls + [Sleep(500), SetDtr(false), SetDtr(true)] <= r.term.calls
    ensures t.written <= r.term.written
    ensures r.result.Fail? ==> !r.term.closed
  {
    var reset := t.(calls := t.calls + [Sleep(500), SetDtr(false), SetDtr(true)]);
    DrainNeverConnects(reset, script);
    DrainWrites(reset, script);
    var d := Drain(reset, script);
    if d.result.Fail? then d
    else OpenEnd(d.term.(calls := d.term.calls + [Connect(baudRate)],
                         written := d.term.written + [NormalizeOutput(Banner(baudRate) + "\n")]), Pass)
  }

  /** The chunks the loop forwards: those read before the first `undefined`, the first read error or the first successful close. */
  function Forwarded(script: seq<HostEvent>): (chunks: seq<seq<byte>>)
    ensures |chunks| <= |script|
    ensures forall i :: 0 <= i < |chunks| ==> Read(Some(chunks[i])) in script
  {
    if script == [] then []
    else match script[0]
      case Read(Some(bytes)) => [bytes] + Forwarded(script[1..])
      case HostClose(Fail(_)) => Forwarded(script[1..])
      case _ => []
  }

  /** What the terminal shows for the forwarded chunks: each codec-converted and normalised. */
  function Rendered(chunks: seq<seq<byte>>): (out: seq<string>)
    ensures |out| == |chunks|
    ensures forall i :: 0 <= i < |chunks| ==> out[i] == NormalizeOutput(UInt8ArrayToString(chunks[i]))
  {
    if chunks == [] then [] else [NormalizeOutput(UInt8ArrayToString(chunks[0]))] + Rendered(chunks[1..])
  }

  /** Nothing read after the first `undefined` is forwarded. */
  lemma {:induction false} ForwardedStopsAtUndefined(script: seq<HostEvent>, k: nat)
    requires k < |script| && script[k] == Read(None)
    ensures Forwarded(script) == Forwarded(script[..k])
  {
    if k > 0 {
      assert script[1..][k - 1] == Read(None);
      ForwardedStopsAtUndefined(script[1..], k - 1);
      assert script[..k][1..] == script[1..][..k - 1];
    }
  }

  /** When every read yields data, every chunk is forwarded, in read order. */
  lemma {:induction false} ForwardedAllChunks(script: seq<HostEvent>)
    requires forall i :: 0 <= i < |script| ==> script[i].Read? && script[i].value.Some?
    ensures |Forwarded(script)| == |script|
    ensures forall i :: 0 <= i < |script| ==> Forwarded(script)[i] == script[i].value.value
  {
    if script != [] {
      ForwardedAllChunks(script[1..]);
    }
  }

  /** The state after the drain loop's first step, when the loop does not stop there. */
  function DrainStep(t: Term, e: HostEvent): Term
  {
    match e
    case Read(Some(bytes)) =>
      t.(calls := t.calls + [RawRead], written := t.written + [NormalizeOutput(UInt8ArrayToString(bytes))])
    case HostClose(d) => CloseStep(t, d)
    case _ => t.(calls := t.calls + [RawRead])
  }

  /** One unfolding of `Drain`. */
  lemma DrainUnfold(t: Term, script: seq<HostEvent>)
    requires !t.closed && script != []
    requires script[0].HostClose? || (script[0].Read? && script[0].value.Some?)
    ensures Drain(t, script) == Drain(DrainStep(t, script[0]), script[1..])
  {
  }

  /** The drain loop keeps the close discipline: the close event fires at most once, and only with `closed` set. */
  lemma {:induction false} DrainKeepsDiscipline(t: Term, script: seq<HostEvent>)
    requires CloseDiscipline(t)
    ensures CloseDiscipline(Drain(t, script).term)
    decreases |script|
  {
    if !t.closed && script != [] {
      var e := script[0];
      if e.HostClose? || (e.Read? && e.value.Some?) {
        DrainUnfold(t, script);
        DrainKeepsDiscipline(DrainStep(t, e), script[1..]);
      }
    }
  }

  /** Rendering distributes over a chunk put in front. */
  lemma RenderedCons(chunk: seq<byte>, rest: seq<seq<byte>>)
    ensures Rendered([chunk] + rest) == [NormalizeOutput(UInt8ArrayToString(chunk))] + Rendered(rest)
  {
    assert ([chunk] + rest)[1..] == rest;
  }

  /** The drain loop writes exactly the rendered forwarded chunks and keeps the close discipline. */
  lemma {:induction false} DrainForwards(t: Term, script: seq<HostEvent>)
    requires CloseDiscipline(t)
    ensures CloseDiscipline(Drain(t, script).term)
    ensures Drain(t, script).term.written == t.written + (if t.closed then [] else Rendered(Forwarded(script)))
  {
    DrainKeepsDiscipline(t, script);
    DrainWrites(t, script);
  }

  /** What the drain loop writes, whatever the close discipline. */
  lemma {:induction false} DrainWrites(t: Term, script: seq<HostEvent>)
    ensures Drain(t, script).term.written == t.written + (if t.closed then [] else Rendered(Forwarded(script)))
    decreases |script|
  {
    if !t.closed && script != [] {
      var e := script[0];
      if e.HostClose? || (e.Read? && e.value.Some?) {
        var next := DrainStep(t, e);
        DrainUnfold(t, script);
        DrainWrites(next, script[1..]);
        if e.Read? {
          RenderedCons(e.value.value, Forwarded(script[1..]));
        } else if e.disconnect.Pass? {
          assert next.closed;
        }
      }
    }
  }

  /** The drain loop only appends to the call log, and only reads, waits and disconnects: it never connects the transport. */
  lemma {:induction false} DrainNeverConnects(t: Term, script: seq<HostEvent>)
    ensures t.calls <= Drain(t, script).term.calls
    ensures forall i :: |t.calls| <= i < |Drain(t, script).term.calls| ==> !Drain(t, script).term.calls[i].Connect?
    decreases |script|
  {
    if !t.closed && script != [] {
      var e := script[0];
      if e.HostClose? || (e.Read? && e.value.Some?) {
        var next := DrainStep(t, e);
        DrainUnfold(t, script);
        DrainNeverConnects(next, script[1..]);
      }
    }
  }

  /** Each of the first `k` events keeps the loop going: a read that yields data, or a host close whose disconnect fails. */
  predicate KeepsDraining(script: seq<HostEvent>, k: nat)
  {
    k <= |script| &&
    forall j :: 0 <= j < k ==>
      (script[j].Read? && script[j].value.Some?) || (script[j].HostClose? && script[j].disconnect.Fail?)
  }

  /** A read that throws, reached while the terminal is still open, makes the drain loop reject with its error. */
  lemma {:induction false} DrainRejectsOnReadError(t: Term, script: seq<HostEvent>, k: nat, e: Thrown)
    requires !t.closed
    requires k < |script| && script[k] == ReadThrows(e)
    requires KeepsDraining(script, k)
    ensures Drain(t, script).result == Fail(e)
    decreases k
  {
    if k > 0 {
      DrainUnfold(t, script);
      var next := DrainStep(t, script[0]);
      assert !next.closed;
      assert KeepsDraining(script[1..], k - 1) by {
        forall j | 0 <= j < k - 1
          ensures (script[1..][j].Read? && script[1..][j].value.Some?) || (script[1..][j].HostClose? && script[1..][j].disconnect.Fail?)
        {
          assert script[1..][j] == script[j + 1];
        }
      }
      assert script[1..][k - 1] == ReadThrows(e);
      DrainRejectsOnReadError(next, script[1..], k - 1, e);
    }
  }

  /** So `open()` rejects with that error: a read error does not end the loop silently. */
  lemma OpenRejectsOnReadError(t: Term, baudRate: nat, script: seq<HostEvent>, k: nat, e: Thrown)
    requires !t.closed
    requires k < |script| && script[k] == ReadThrows(e)
    requires KeepsDraining(script, k)
    ensures OpenSpec(t, baudRate, script).result == Fail(e)
  {
    DrainRejectsOnReadError(t.(calls := t.calls + [Sleep(500), SetDtr(false), SetDtr(true)]), script, k, e);
  }

  /**
   * `open()` forwards each chunk read, in order, codec-converted and
   * normalised; it connects the transport at the configured baud rate only
   * after the loop has ended, as its last call, and then writes the banner.
   * A read error rejects `open()` before it connects or writes the banner.
   */
  lemma OpenConnectsAfterDrain(t: Term, baudRate: nat, script: seq<HostEvent>)
    requires CloseDiscipline(t)
    ensures var e := OpenSpec(t, baudRate, script);
      var drained := t.written + (if t.closed then [] else Rendered(Forwarded(script)));
      && CloseDiscipline(e.term)
      && t.calls + [Sleep(500), SetDtr(false), SetDtr(true)] <= e.term.calls
      && (e.result.Pass? ==>
            && e.term.written == drained + [NormalizeOutput(Banner(baudRate) + "\n")]
            && |e.term.calls| > 0 && e.term.calls[|e.term.calls| - 1] == Connect(baudRate)
            && forall i :: |t.calls| <= i < |e.term.calls| - 1 ==> !e.term.calls[i].Connect?)
      && (e.result.Fail? ==>
            && e.term.written == drained
            && forall i :: |t.calls| <= i < |e.term.calls| ==> !e.term.calls[i].Connect?)
  {
    var reset := t.(calls := t.calls + [Sleep(500), SetDtr(false), SetDtr(true)]);
    DrainForwards(reset, script);
    DrainNeverConnects(reset, script);
  }

  // ---------------------------------------------------------------------------
  // The class
  // ---------------------------------------------------------------------------

  class SerialTerminal {
    const transport: Transport
    /** `options.baudRate`. */
    const baudRate: nat
    var closed: bool
    /** Every `onDidWrite` event, in order. */
    ghost var written: seq<string>
    /** Every `onDidClose` event, in order. */
    ghost var closeEvents: seq<int>
    /** Every call made on `transport`, in order. */
    ghost var calls: seq<TransportCall>

    ghost function State(): Term
      reads this
    {
      Term(closed, written, closeEvents, calls)
    }

    ghost predicate Valid()
      reads this
    {
      CloseDiscipline(State())
    }

    constructor (transport: Transport, baudRate: nat)
      ensures this.transport == transport && this.baudRate == baudRate
      ensures Valid() && State() == Term(false, [], [], [])
    {
      this.transport := transport;
      this.baudRate := baudRate;
      closed := false;
      written, closeEvents, calls := [], [], [];
    }

    method WriteOutput(message: string)
      modifies this`written
      ensures written == old(written) + [NormalizeOutput(message)]
    {
      written := written + [NormalizeOutput(message)];
    }

    method WriteLine(message: string)
      modifies this`written
      ensures written == old(written) + [NormalizeOutput(message + "\n")]
    {
      WriteOutput(message + "\n");
    }

    /** `reset()`: `setDTR(false)` strictly before `setDTR(true)`; the 100 ms pause between them is not modelled. */
    method Reset()
      modifies this`calls
      ensures calls == old(calls) + [SetDtr(false), SetDtr(true)]
    {
      calls := calls + [SetDtr(false)];
      calls := calls + [SetDtr(true)];
    }

    /** `close()`; `disconnect` is what `transport.disconnect()` does, and a failure rejects `close()`. */
    method Close(disconnect: Outcome<Thrown>) returns (r: Outcome<Thrown>)
      requires Valid()
      modifies this
      ensures Valid()
      ensures State() == CloseStep(old(State()), disconnect)
      ensures r == disconnect
    {
      calls := calls + [WaitForUnlock(1500)];
      calls := calls + [Disconnect];
      if disconnect.Fail? {
        return disconnect;
      }
      if !closed {
        closed := true;
        closeEvents := closeEvents + [0];
      }
      r := Pass;
    }

    /** `handleInput(data)`: echoes the keystrokes as output and never writes to the transport. */
    method HandleInput(data: string)
      modifies this`written
      ensures written == old(written) + [NormalizeOutput(InputBanner + "\n"), NormalizeOutput(data)]
      ensures calls == old(calls)
    {
      WriteLine(InputBanner);
      ghost var banner := written;
      WriteOutput(data);
      assert written == banner + [NormalizeOutput(data)];
    }

    /** `open()`, with the environment's behaviour during the drain loop given by `script`. */
    method Open(script: seq<HostEvent>) returns (r: Outcome<Thrown>)
      requires Valid()
      modifies this
      ensures Valid()
      ensures OpenEnd(State(), r) == OpenSpec(old(State()), baudRate, script)
    {
      calls := calls + [Sleep(500)];
      Reset();
      ghost var start := State();
      assert start == old(State()).(calls := old(State()).calls + [Sleep(500), SetDtr(false), SetDtr(true)]);
      var i := 0;
      while !closed
        invariant i <= |script|
        invariant Valid()
        invariant Drain(State(), script[i..]) == Drain(start, script)
        decreases |script| - i
      {
        ghost var before := State();
        if i == |script| {
          calls := calls + [RawRead];
          assert Drain(start, script) == OpenEnd(State(), Pass);
          break;
        }
        assert script[i..][0] == script[i] && script[i..][1..] == script[i + 1..];
        match script[i]
        case Read(None) =>
          calls := calls + [RawRead];
          assert Drain(start, script) == OpenEnd(State(), Pass);
          break;
        case Read(Some(bytes)) =>
          calls := calls + [RawRead];
          WriteOutput(UInt8ArrayToString(bytes));
          DrainUnfold(before, script[i..]);
          i := i + 1;
        case ReadThrows(e) =>
          calls := calls + [RawRead];
          assert Drain(start, script) == OpenEnd(State(), Fail(e));
          return Fail(e);
        case HostClose(d) =>
          var _ := Close(d);
          DrainUnfold(before, script[i..]);
          i := i + 1;
      }
      ghost var drained := State();
      assert Drain(start, script) == OpenEnd(drained, Pass);
      calls := calls + [Connect(baudRate)];
      WriteLine(Banner(baudRate));
      r := Pass;
      assert State() == drained.(calls := drained.calls + [Connect(baudRate)],
                                 written := drained.written + [NormalizeOutput(Banner(baudRate) + "\n")]);
    }
  }

  /** Two `close()` calls that both disconnect: one close event, two disconnects. */
  method CloseTwice(terminal: SerialTerminal) returns (r1: Outcome<Thrown>, r2: Outcome<Thrown>)
    requires terminal.Valid() && !terminal.closed
    modifies terminal
    ensures terminal.closed && terminal.closeEvents == [0]
    ensures terminal.calls == old(terminal.calls) + CloseCalls(2)
  {
    r1 := terminal.Close(Pass);
    r2 := terminal.Close(Pass);
  }
}
