/** One UUID in two spellings.  The format check ignores letter case, the store does not. */
module KeySpelling {
  import opened Idempotency
  import opened Interceptor
  import Keys

  /** While a request holds its lock, the same request with its key in another spelling
      comes along and nothing disturbs it.  Its handler runs too, within one lifetime of
      the first lock, exactly if the spellings differ. */
  lemma SecondSpellingRuns(first: Request, key: string, now: int, later: nat, w: Surroundings)
    requires Keys.IsUuidV4(first.key) && Keys.SameUpToCase(first.key, key)
    requires later + w.beforeLock.elapsed < TTL && w.onRead.Delivered? && w.onLock.Delivered?
    requires w.beforeLock.data == LockStep(KeyOf(first), first, map[], now, Delivered).0
    ensures var s := LockStep(KeyOf(first), first, map[], now, Delivered).0;
            var pc := Passage(Guarded(first.(key := key)), s, now + later, w).1;
            && LockStep(KeyOf(first), first, map[], now, Delivered).1.Running?
            && (pc == Answered(w.outcome) <==> key != first.key)
            && (pc == Refused(Busy) <==> key == first.key)
  {
    Keys.SpellingsAreKeys(first.user, first.key, key);
  }
}
