/**
 * The log throttle `logErrorThrottled` (src/server/websocket-manager.ts:504-512,
 * src/server/yandex-handler.ts:337-346): a message under a key is let through
 * when at least the interval has passed since the last one let through under
 * that key. The clock is a parameter `now`.
 */
module Throttle {

  import opened Wrappers

  const DefaultIntervalMs: int := 3000

  type Timestamps = map<string, int>

  /** The key the throttle files a session's message under. */
  function CompositeKey(sessionId: string, key: string): string {
    sessionId + ":" + key
  }

  /** The time of the last message let through, or 0 (`|| 0`) when there was none. */
  function LastTime(ts: Timestamps, k: string): int {
    if k in ts && ts[k] != 0 then ts[k] else 0
  }

  datatype Decision = Decision(fires: bool, timestamps: Timestamps)

  /** One throttled call: whether the message is let through, and the updated clock table. */
  function Check(ts: Timestamps, sessionId: string, key: string, now: int, intervalMs: int := DefaultIntervalMs): (d: Decision)
    ensures d.fires <==> now - LastTime(ts, CompositeKey(sessionId, key)) >= intervalMs
    ensures d.fires ==> d.timestamps == ts[CompositeKey(sessionId, key) := now]
    ensures !d.fires ==> d.timestamps == ts
  {
    var k := CompositeKey(sessionId, key);
    if now - LastTime(ts, k) >= intervalMs then Decision(true, ts[k := now]) else Decision(false, ts)
  }

  /** Within one interval of a message let through, the next one under the same key is held back. */
  lemma HeldBackWithinInterval(ts: Timestamps, sessionId: string, key: string, t1: int, t2: int, intervalMs: int)
    requires t1 != 0 && t2 - t1 < intervalMs
    requires Check(ts, sessionId, key, t1, intervalMs).fires
    ensures !Check(Check(ts, sessionId, key, t1, intervalMs).timestamps, sessionId, key, t2, intervalMs).fires
  {
  }

  /** A key that was never used lets its first message through once the clock has passed the interval. */
  lemma FirstMessageFires(ts: Timestamps, sessionId: string, key: string, now: int, intervalMs: int)
    requires CompositeKey(sessionId, key) !in ts && now >= intervalMs
    ensures Check(ts, sessionId, key, now, intervalMs).fires
  {
  }

  predicate NoColon(s: string) {
    forall i :: 0 <= i < |s| ==> s[i] != ':'
  }

  /** Session ids without a colon keep the keys of different sessions and messages apart. */
  lemma {:induction false} CompositeKeyInjective(s1: string, k1: string, s2: string, k2: string)
    requires NoColon(s1) && NoColon(s2)
    requires CompositeKey(s1, k1) == CompositeKey(s2, k2)
    ensures s1 == s2 && k1 == k2
  {
    var c := CompositeKey(s1, k1);
    assert c[|s1|] == ':' && c[|s2|] == ':';
    if |s1| < |s2| {
      assert false;
    } else if |s2| < |s1| {
      assert false;
    }
    assert s1 == c[..|s1|] == s2;
    assert k1 == c[|s1| + 1..] == k2;
  }

  /** A message let through for one session leaves every other session's throttle untouched. */
  lemma OtherSessionsUnaffected(ts: Timestamps, s1: string, s2: string, key: string, now: int, intervalMs: int)
    requires NoColon(s1) && NoColon(s2) && s1 != s2
    ensures LastTime(Check(ts, s1, key, now, intervalMs).timestamps, CompositeKey(s2, key)) == LastTime(ts, CompositeKey(s2, key))
  {
    if CompositeKey(s1, key) == CompositeKey(s2, key) {
      CompositeKeyInjective(s1, key, s2, key);
    }
  }
}
