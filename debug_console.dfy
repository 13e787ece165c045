/** `components/DebugConsole.tsx`: a log buffer that keeps the last twenty events it hears on
    the `app:debug-log` channel, and a flag telling a closed console that something new
    arrived. Random ids and clock timestamps arrive with the log as parameters. */
module DebugConsole {

  datatype LogType = Request | Response | Error

  /** `DebugLog`; the content, any JSON value in the source, is kept as its text. */
  datatype DebugLog = DebugLog(id: string, timestamp: string, kind: LogType, content: string)

  const LogCap: nat := 20

  /** `s.slice(-n)` for a positive `n`: the last `n` elements, or all of them. */
  function KeepLast<T>(s: seq<T>, n: nat): (r: seq<T>)
    requires n > 0
    ensures |r| == if |s| < n then |s| else n
    ensures r == s[|s| - |r|..]
  {
    if |s| <= n then s else s[|s| - n..]
  }

  /** With the buffer full, a new entry evicts the oldest and keeps the others in order. */
  lemma FullBufferEvictsOldest<T>(s: seq<T>, x: T)
    requires |s| == LogCap
    ensures KeepLast(s + [x], LogCap) == s[1..] + [x]
  {
  }

  /** The entry just received is always the last one kept, and nothing else is new. */
  lemma NewestIsLast<T>(s: seq<T>, x: T, n: nat)
    requires n > 0
    ensures var r := KeepLast(s + [x], n);
      |r| > 0 && r[|r| - 1] == x && r[..|r| - 1] == KeepLast(s, n)[1 + |KeepLast(s, n)| - |r|..]
  {
    var r := KeepLast(s + [x], n);
    var k := KeepLast(s, n);
    if |s| < n {
      assert r == s + [x];
    } else {
      assert r[..|r| - 1] == s[|s| + 1 - n..];
      assert k == s[|s| - n..];
    }
  }

  /** The logs after hearing `trace`, one event at a time, from an empty buffer. */
  function LogsAfter(trace: seq<DebugLog>): seq<DebugLog> {
    if trace == [] then [] else KeepLast(LogsAfter(trace[..|trace| - 1]) + [trace[|trace| - 1]], LogCap)
  }

  /** Truncating after every event is the same as truncating once: the buffer holds the
      twenty most recent events in arrival order. */
  lemma {:induction false} LogsAfterKeepsLast(trace: seq<DebugLog>)
    ensures LogsAfter(trace) == KeepLast(trace, LogCap)
  {
    if trace != [] {
      var init := trace[..|trace| - 1];
      var x := trace[|trace| - 1];
      LogsAfterKeepsLast(init);
      assert trace == init + [x];
      KeepLastAppend(init, x, LogCap);
    }
  }

  /** Truncating before an append does not change what the truncation after it keeps. */
  lemma KeepLastAppend<T>(s: seq<T>, x: T, n: nat)
    requires n > 0
    ensures KeepLast(KeepLast(s, n) + [x], n) == KeepLast(s + [x], n)
  {
    var k := KeepLast(s, n);
    assert k + [x] == (s + [x])[|s| - |k|..];
  }

  class Console {
    var isOpen: bool
    var logs: seq<DebugLog>
    var hasNew: bool

    /** At most twenty logs; an open console never shows the new-log mark. */
    ghost predicate Valid()
      reads this
    {
      |logs| <= LogCap && (isOpen ==> !hasNew)
    }

    constructor ()
      ensures Valid() && !isOpen && logs == [] && !hasNew
    {
      isOpen := false;
      logs := [];
      hasNew := false;
    }

    /** `handleLog`, followed by the effect on `[logs, isOpen]`: append, keep the last
        twenty, and mark a closed console. */
    method HandleLog(log: DebugLog)
      requires Valid()
      modifies this`logs, this`hasNew
      ensures Valid()
      ensures logs == KeepLast(old(logs) + [log], LogCap)
      ensures hasNew == !isOpen
    {
      logs := KeepLast(logs + [log], LogCap);
      if !isOpen {
        hasNew := true;
      }
      if isOpen {
        hasNew := false;
      }
    }

    /** The floating button: open or close; opening clears the mark. */
    method Toggle()
      requires Valid()
      modifies this`isOpen, this`hasNew
      ensures Valid()
      ensures isOpen == !old(isOpen)
      ensures hasNew == (old(hasNew) && !isOpen)
    {
      isOpen := !isOpen;
      if isOpen {
        hasNew := false;
      }
    }

    /** The close dot in the header. */
    method Close()
      requires Valid()
      modifies this`isOpen
      ensures Valid()
      ensures !isOpen
    {
      isOpen := false;
    }

    /** The trash button. */
    method Clear()
      requires Valid()
      modifies this`logs
      ensures Valid()
      ensures logs == []
    {
      logs := [];
    }
  }
}
