/**
  The off-host copy of `offsite.py`: the newest verified dump, stored under a key of its
  trading session and, for the week's last session, under a weekly key too. The bucket is
  a map; how each listing and upload ends is an input.
*/
module Offsite {
  import opened Wrappers
  import opened Calendar

  const POST_CLOSE_LAG: int := 15
  const MAX_DUMP_AGE: int := 130
  const SUNDAY: int := 6

  datatype Key = Daily(day: int) | Weekly(day: int)

  datatype Stored = Stored(size: nat, dumpAt: int)

  /** The calendar and the last date it covers. */
  datatype Coverage = Coverage(calendar: Calendar, through: int)

  /** A dump between a session's open and fifteen minutes past its close waits for the later one. */
  predicate InSession(s: Session, at: int)
  {
    s.openAt <= at < s.closeAt + POST_CLOSE_LAG
  }

  function DestinationKeys(at: int, coverage: Option<Coverage>): seq<Key>
  {
    if coverage.Some? && DayOf(at) <= coverage.value.through then
      var c := coverage.value.calendar;
      var today := SessionFor(c, at);
      var closed := LastClosed(c, at, POST_CLOSE_LAG);
      if today.Some? && InSession(today.value, at) then []
      else if closed == None then []
      else if IsLastOfWeek(c, closed.value.day) then [Daily(closed.value.day), Weekly(closed.value.day)]
      else [Daily(closed.value.day)]
    else if DayOf(at) % 7 == SUNDAY then [Daily(DayOf(at)), Weekly(DayOf(at))]
    else [Daily(DayOf(at))]
  }

  // ----------------------------------------------------------------------- what keys mean

  predicate Covered(at: int, coverage: Option<Coverage>)
  {
    coverage.Some? && DayOf(at) <= coverage.value.through
  }

  /** The dump follows this session: past its close and lag, and before any later one opens. */
  ghost predicate Follows(c: Calendar, s: Session, at: int)
  {
    && s in c && s.closeAt + POST_CLOSE_LAG <= at
    && forall n :: n in c && n.day > s.day ==> at < n.openAt
  }

  /**
    A dump stored under a session's key was taken after its close and lag; and before the
    next session's open exactly when no session is still inside its own lag, as one that
    closes in the last quarter hour of a date would be.
  */
  lemma DailyFollowsItsSession(at: int, coverage: Coverage, day: int)
    requires IsCalendar(coverage.calendar) && Covered(at, Some(coverage))
    requires Daily(day) in DestinationKeys(at, Some(coverage))
    ensures exists s :: s in coverage.calendar && s.day == day && s.closeAt + POST_CLOSE_LAG <= at &&
              (Follows(coverage.calendar, s, at) <==> forall n :: n in coverage.calendar ==> !InSession(n, at))
  {
    var c := coverage.calendar;
    var s := LastClosed(c, at, POST_CLOSE_LAG).value;
    LastClosedIsLatest(c, at, POST_CLOSE_LAG);
    forall n | n in c && n.day > s.day && n.openAt <= at ensures InSession(n, at) {
      LaterClosesLater(c, s, n);
    }
    forall n | n in c && InSession(n, at) ensures n.day > s.day && n.openAt <= at {
      if n.day <= s.day { EarlierClosesEarlier(c, n, s); }
    }
  }

  lemma LaterClosesLater(c: Calendar, s: Session, n: Session)
    requires IsCalendar(c) && s in c && n in c && n.day > s.day
    ensures s.closeAt < n.openAt < n.closeAt
  {
    ClosesAscend(c);
    var i :| 0 <= i < |c| && c[i] == s;
    var j :| 0 <= j < |c| && c[j] == n;
  }

  lemma EarlierClosesEarlier(c: Calendar, n: Session, s: Session)
    requires IsCalendar(c) && s in c && n in c && n.day <= s.day
    ensures n.closeAt <= s.closeAt
  {
    if n.day < s.day {
      LaterClosesLater(c, n, s);
    } else {
      var i :| 0 <= i < |c| && c[i] == s;
      var j :| 0 <= j < |c| && c[j] == n;
    }
  }

  /** No session of the calendar runs into the last quarter hour of its date. */
  ghost predicate ClosesInTime(c: Calendar)
  {
    forall s :: s in c ==> s.closeAt + POST_CLOSE_LAG <= (s.day + 1) * DAY
  }

  /** For such a calendar every covered daily copy holds exactly its own session's data. */
  lemma DailyIsItsOwnSession(at: int, coverage: Coverage, day: int)
    requires IsCalendar(coverage.calendar) && ClosesInTime(coverage.calendar) && Covered(at, Some(coverage))
    requires Daily(day) in DestinationKeys(at, Some(coverage))
    ensures exists s: Session :: s.day == day && Follows(coverage.calendar, s, at)
  {
    var c := coverage.calendar;
    DailyFollowsItsSession(at, coverage, day);
    TodayIsNotInSession(at, coverage, day);
    hide DestinationKeys;
    if n :| n in c && InSession(n, at) {
      InSessionToday(c, n, at);
      assert false;
    }
  }

  lemma InSessionToday(c: Calendar, n: Session, at: int)
    requires IsCalendar(c) && ClosesInTime(c) && n in c && InSession(n, at)
    ensures SessionFor(c, at) == Some(n)
  {
    SessionOnIts(c, n);
    var i :| 0 <= i < |c| && c[i] == n;
    assert DayOf(at) == n.day;
  }

  lemma TodayIsNotInSession(at: int, coverage: Coverage, day: int)
    requires Covered(at, Some(coverage)) && Daily(day) in DestinationKeys(at, Some(coverage))
    ensures SessionFor(coverage.calendar, at).Some? ==> !InSession(SessionFor(coverage.calendar, at).value, at)
  {
  }

  /** A close at 23:50 puts the dump of 00:02 under the session before it. */
  lemma LateCloseMisplacesADump()
    ensures var c := [Session(0, 570, 960), Session(1, DAY + 570, DAY + 1430)];
      && IsCalendar(c) && Daily(0) in DestinationKeys(2 * DAY + 2, Some(Coverage(c, 10)))
      && c[1].openAt <= 2 * DAY + 2
  {
    var c := [Session(0, 570, 960), Session(1, DAY + 570, DAY + 1430)];
    var at := 2 * DAY + 2;
    assert SessionOn(c[..1], 2) == None && SessionOn(c, 2) == None by {
      assert c[..1][..0] == [];
    }
    assert c[..1] == [c[0]];
    assert LastClosed([], at, POST_CLOSE_LAG) == None;
    assert LastClosed([c[0]], at, POST_CLOSE_LAG) == Some(c[0]) by { assert [c[0]][..0] == []; }
    assert LastClosed(c, at, POST_CLOSE_LAG) == Some(c[0]);
  }

  /** A weekly copy goes with the daily one, for a session with none later in its week. */
  lemma WeeklyIsTheLastOfItsWeek(at: int, coverage: Coverage, day: int)
    requires Covered(at, Some(coverage))
    ensures Weekly(day) in DestinationKeys(at, Some(coverage)) <==>
              Daily(day) in DestinationKeys(at, Some(coverage)) && IsLastOfWeek(coverage.calendar, day)
  {
  }

  // ------------------------------------------------------------------------------ a pass

  datatype Error = NotVerified | Stale | Changed | ListingFailed | EncryptionFailed | UploadFailed | NotIntact

  /** What `backup.json` says, and the file it names as it is now. */
  datatype Backup = Backup(verified: bool, at: int, bytes: int, actual: Option<int>)

  /** One upload: what the command answers, and the bytes that landed, if any did. */
  datatype Put = Put(ok: bool, landed: Option<nat>)

  /** `listed`: whether the listing before an upload, and the one after it, can be read. */
  datatype World = World(now: int, backup: Option<Backup>, listed: (Key, bool) -> bool,
                         ciphertext: Option<nat>, puts: Key -> Put, summarised: bool)

  function VerifySource(w: World): Result<int, Error>
  {
    if w.backup == None || !w.backup.value.verified then Failure(NotVerified)
    else if w.now - w.backup.value.at > MAX_DUMP_AGE then Failure(Stale)
    else if w.backup.value.actual != Some(w.backup.value.bytes) then Failure(Changed)
    else Success(w.backup.value.at)
  }

  type Bucket = map<Key, Stored>

  /** Every object is where its dump's time puts it. */
  ghost predicate Placed(b: Bucket, coverage: Option<Coverage>)
  {
    forall k :: k in b ==> k in DestinationKeys(b[k].dumpAt, coverage)
  }

  /** Nothing is overwritten or removed; what is new is this dump, under its own keys. */
  ghost predicate Adds(b: Bucket, c: Bucket, at: int, keys: seq<Key>)
  {
    && (forall k :: k in b ==> k in c && c[k] == b[k])
    && (forall k :: k in c && k !in b ==> k in keys && c[k].dumpAt == at)
  }

  ghost predicate Present(b: Bucket, keys: seq<Key>)
  {
    forall k :: k in keys ==> k in b
  }

  lemma KeysDiffer(at: int, coverage: Option<Coverage>)
    ensures var keys := DestinationKeys(at, coverage);
      |keys| <= 2 && forall i, j :: 0 <= i < j < |keys| ==> keys[i] != keys[j]
  {
  }

  /** What one pass does to the bucket, and what it answers. */
  ghost predicate PassDoes(b: Bucket, c: Bucket, w: World, coverage: Option<Coverage>, r: Result<seq<Key>, Error>)
  {
    var source := VerifySource(w);
    if source.Failure? then r == Failure(source.error) && c == b
    else
      && var keys := DestinationKeys(source.value, coverage);
      && Adds(b, c, source.value, keys)
      && (r.Success? ==> Present(c, keys))
      && (r.Success? ==> forall k :: k in r.value <==> k in keys && k !in b)
      && (Present(b, keys) ==> c == b && (r.Success? ==> r.value == []))
      && (r.Success? <==> GoesThrough(b, keys, w))
      && (forall k :: k in c && k !in b ==> w.puts(k).landed == Some(c[k].size))
      && (c != b ==> w.ciphertext.Some? && forall k :: k in keys ==> w.listed(k, false))
  }

  /** This key's upload is answered, listed, and as long as what was encrypted. */
  predicate Lands(w: World, k: Key)
  {
    w.puts(k).ok && w.listed(k, true) && w.ciphertext.Some? && w.puts(k).landed == w.ciphertext
  }

  /** Nothing stands in the pass's way: every listing, and the upload of every missing key. */
  ghost predicate GoesThrough(b: Bucket, keys: seq<Key>, w: World)
  {
    && w.summarised
    && forall k :: k in keys ==> w.listed(k, false) && (k !in b ==> Lands(w, k))
  }

  /** What stops the run at a key that does not land. */
  function Stopped(w: World, k: Key): Error
  {
    if !w.puts(k).ok then UploadFailed else if !w.listed(k, true) then ListingFailed else NotIntact
  }

  /**
    The uploads went as far as key `n`: those before it landed whole, it did not if there is
    one, and what came of it is in the bucket; the keys after it were not tried.
  */
  ghost predicate UploadsTo(b: Bucket, c: Bucket, missing: seq<Key>, at: int, w: World, n: int, r: Result<(), Error>)
  {
    && 0 <= n <= |missing|
    && (forall i :: 0 <= i < n ==> Lands(w, missing[i]) && missing[i] in c)
    && (n == |missing| ==> r == Success(()))
    && (n < |missing| ==> !Lands(w, missing[n]) && r == Failure(Stopped(w, missing[n])))
    && (n < |missing| ==> (missing[n] in c <==> w.puts(missing[n]).landed.Some?))
    && (forall i :: n < i < |missing| ==> missing[i] !in c)
    && (forall k :: k in c && k !in b ==> k in missing && w.puts(k).landed == Some(c[k].size) && c[k].dumpAt == at)
    && (forall k :: k in b ==> k in c && c[k] == b[k])
  }

  class Oss {
    var bucket: Bucket

    /** The keys among these that hold nothing; a listing that cannot be read stops the run. */
    method Missing(keys: seq<Key>, w: World) returns (r: Result<seq<Key>, Error>)
      requires forall i, j :: 0 <= i < j < |keys| ==> keys[i] != keys[j]
      ensures r.Success? ==> forall k :: k in r.value <==> k in keys && k !in bucket
      ensures r.Success? ==> forall i, j :: 0 <= i < j < |r.value| ==> r.value[i] != r.value[j]
      ensures r.Success? && Present(bucket, keys) ==> r.value == []
      ensures r == Failure(ListingFailed) || (r.Success? && forall k :: k in keys ==> w.listed(k, false))
      ensures r.Failure? ==> exists k :: k in keys && !w.listed(k, false)
    {
      var missing := [];
      for i := 0 to |keys|
        invariant forall k :: k in missing <==> k in keys[..i] && k !in bucket
        invariant forall i, j :: 0 <= i < j < |missing| ==> missing[i] != missing[j]
        invariant Present(bucket, keys) ==> missing == []
        invariant forall k :: k in keys[..i] ==> w.listed(k, false)
      {
        assert keys[..i + 1] == keys[..i] + [keys[i]];
        assert keys[i] !in keys[..i];
        if !w.listed(keys[i], false) { return Failure(ListingFailed); }
        if keys[i] !in bucket { missing := missing + [keys[i]]; }
      }
      assert keys[..|keys|] == keys;
      r := Success(missing);
    }

    /** The same ciphertext to every missing key, each checked as it lands. */
    method Upload(missing: seq<Key>, at: int, w: World) returns (r: Result<(), Error>)
      requires forall i, j :: 0 <= i < j < |missing| ==> missing[i] != missing[j]
      requires forall k :: k in missing ==> k !in bucket
      modifies this
      ensures Adds(old(bucket), bucket, at, missing)
      ensures r.Success? ==> Present(bucket, missing)
      ensures r.Success? ==>
                w.ciphertext.Some? && forall k :: k in missing ==> k in bucket && bucket[k].size == w.ciphertext.value
      ensures w.ciphertext == None ==> r == Failure(EncryptionFailed) && bucket == old(bucket)
      ensures w.ciphertext.Some? ==> exists n :: UploadsTo(old(bucket), bucket, missing, at, w, n, r)
    {
      if w.ciphertext == None { return Failure(EncryptionFailed); }
      ghost var b := bucket;
      for i := 0 to |missing|
        invariant UploadsTo(b, bucket, missing[..i], at, w, i, Success(()))
        invariant forall k :: k in missing[i..] ==> k !in bucket
      {
        var key := missing[i];
        ghost var c := bucket;
        assert missing[..i + 1] == missing[..i] + [key] && missing[i..] == [key] + missing[i + 1..];
        var put := w.puts(key);
        if put.landed.Some? { bucket := bucket[key := Stored(put.landed.value, at)]; }
        Tried(b, c, bucket, missing, at, w, i);
        if !put.ok { return Failure(UploadFailed); }
        if !w.listed(key, true) { return Failure(ListingFailed); }
        if key !in bucket || bucket[key].size != w.ciphertext.value { return Failure(NotIntact); }
      }
      assert missing[..|missing|] == missing;
      r := Success(());
    }

    /** One pass. On success it answers the keys it uploaded. */
    method RunOffsite(w: World, coverage: Option<Coverage>) returns (r: Result<seq<Key>, Error>)
      modifies this
      ensures PassDoes(old(bucket), bucket, w, coverage, r)
    {
      var source := VerifySource(w);
      if source.Failure? { return Failure(source.error); }
      var at := source.value;
      var keys := DestinationKeys(at, coverage);
      KeysDiffer(at, coverage);
      hide DestinationKeys;
      var missing := Missing(keys, w);
      if missing.Failure? { return Failure(missing.error); }
      if missing.value != [] {
        var uploaded := Upload(missing.value, at, w);
        if uploaded.Failure? { return Failure(uploaded.error); }
      }
      if !w.summarised { return Failure(ListingFailed); }
      r := missing;
    }
  }

  /** One more key tried: the uploads end on it, or go on past it. */
  lemma Tried(b: Bucket, c: Bucket, d: Bucket, missing: seq<Key>, at: int, w: World, i: nat)
    requires i < |missing| && w.ciphertext.Some? && forall j, k :: 0 <= j < k < |missing| ==> missing[j] != missing[k]
    requires UploadsTo(b, c, missing[..i], at, w, i, Success(())) && forall k :: k in missing[i..] ==> k !in c
    requires d == if w.puts(missing[i]).landed.Some?
                  then c[missing[i] := Stored(w.puts(missing[i]).landed.value, at)] else c
    ensures Lands(w, missing[i]) ==> UploadsTo(b, d, missing[..i + 1], at, w, i + 1, Success(()))
    ensures !Lands(w, missing[i]) ==> UploadsTo(b, d, missing, at, w, i, Failure(Stopped(w, missing[i])))
    ensures forall k :: k in missing[i + 1..] ==> k !in d
  {
    assert forall j :: i <= j < |missing| ==> missing[j] in missing[i..];
    assert forall j :: 0 <= j < i ==> missing[..i][j] == missing[j];
    assert forall k :: k in missing[i + 1..] ==> k in missing[i..] && k != missing[i];
  }

  // ------------------------------------------------------------ what the keys and the record read as

  /** The record is accepted when it is verified, at most 130 minutes old, and its file as long as it says. */
  lemma SourceReads(w: World)
    ensures VerifySource(w).Success? <==>
      && w.backup.Some? && w.backup.value.verified && w.now - w.backup.value.at <= 130
      && w.backup.value.actual == Some(w.backup.value.bytes)
    ensures VerifySource(w).Success? ==> VerifySource(w).value == w.backup.value.at
    ensures VerifySource(w) == Failure(NotVerified) <==> w.backup == None || !w.backup.value.verified
    ensures VerifySource(w) == Failure(Stale) <==>
      w.backup.Some? && w.backup.value.verified && w.now - w.backup.value.at > 130
  {
  }

  /** Without coverage of its date, a dump is kept under that date, and on a Sunday for the week too. */
  lemma UncoveredKeys(at: int, coverage: Option<Coverage>, k: Key)
    requires coverage == None || at / 1440 > coverage.value.through
    ensures k in DestinationKeys(at, coverage) <==> k.day == at / 1440 && (k.Weekly? ==> k.day % 7 == 6)
  {
  }

  /**
    With it, a dump is kept under the last session that has been closed for a quarter of an
    hour, unless that day's own is open or closed no longer ago; and for the week too when no
    later session falls in it.
  */
  lemma CoveredKeys(at: int, coverage: Coverage, k: Key)
    requires IsCalendar(coverage.calendar) && at / 1440 <= coverage.through
    ensures var c := coverage.calendar;
      k in DestinationKeys(at, Some(coverage)) <==>
        && (exists s :: s in c && s.day == k.day && s.closeAt + 15 <= at)
        && (forall s :: s in c && s.closeAt + 15 <= at ==> s.day <= k.day)
        && (forall s :: s in c && s.day == at / 1440 ==> !(s.openAt <= at < s.closeAt + 15))
        && (k.Weekly? ==> forall s :: s in c && s.day > k.day ==> s.day / 7 != k.day / 7)
  {
    var c := coverage.calendar;
    LastClosedIsLatest(c, at, POST_CLOSE_LAG);
    var closed := LastClosed(c, at, POST_CLOSE_LAG);
    forall s | s in c && s.day == at / 1440 ensures SessionFor(c, at) == Some(s) { SessionOnIts(c, s); }
    if closed.Some? {
      var last := closed.value;
      forall s | s in c && s.closeAt + 15 <= at ensures s.day <= last.day { NotLater(c, s, last); }
      forall s | s in c && s.day == last.day ensures s == last { SameDay(c, s, last); }
      LastOfWeekReads(c, last);
    }
    hide IsLastOfWeek, LastClosed, SessionFor;
  }

  lemma NotLater(c: Calendar, s: Session, t: Session)
    requires IsCalendar(c) && s in c && t in c && s.closeAt <= t.closeAt
    ensures s.day <= t.day
  {
    if s.day > t.day { LaterClosesLater(c, t, s); }
  }

  lemma SameDay(c: Calendar, s: Session, t: Session)
    requires IsCalendar(c) && s in c && t in c && s.day == t.day
    ensures s == t
  {
    SessionOnIts(c, s);
    SessionOnIts(c, t);
  }

  lemma LastOfWeekReads(c: Calendar, t: Session)
    requires IsCalendar(c) && t in c
    ensures IsLastOfWeek(c, t.day) <==> forall s :: s in c && s.day > t.day ==> s.day / 7 != t.day / 7
  {
    SessionOnIts(c, t);
    if !IsLastOfWeek(c, t.day) {
      var i :| 0 <= i < |c| && c[i].day > t.day && Week(c[i].day) == Week(t.day);
      assert c[i] in c;
    }
  }

  // ------------------------------------------------------------------------- many passes

  /** The dump a pass would store, if its record is one it accepts. */
  function SourceOf(w: World): Option<int>
  {
    if VerifySource(w).Success? then Some(VerifySource(w).value) else None
  }

  /** The bucket before each pass and after the last, one pass at a time. */
  ghost predicate Chain(buckets: seq<Bucket>, ws: seq<World>, coverage: Option<Coverage>, rs: seq<Result<seq<Key>,
                        Error>>)
  {
    && |rs| == |ws| && |buckets| == |ws| + 1
    && forall n :: 0 <= n < |ws| ==> PassDoes(buckets[n], buckets[n + 1], ws[n], coverage, rs[n])
  }

  /** Over any stretch of passes nothing is overwritten or removed, and what is new is where its dump's time puts it. */
  lemma {:induction false} ChainKeeps(buckets: seq<Bucket>, ws: seq<World>, coverage: Option<Coverage>,
                                      rs: seq<Result<seq<Key>, Error>>, i: nat, j: nat)
    requires Chain(buckets, ws, coverage, rs) && i <= j <= |ws|
    ensures forall k :: k in buckets[i] ==> k in buckets[j] && buckets[j][k] == buckets[i][k]
    ensures Placed(buckets[i], coverage) ==> Placed(buckets[j], coverage)
  {
    hide DestinationKeys;
    if i < j {
      ChainKeeps(buckets, ws, coverage, rs, i, j - 1);
      assert PassDoes(buckets[j - 1], buckets[j], ws[j - 1], coverage, rs[j - 1]);
    }
  }

  /**
    After a pass that succeeded, every later pass on the same dump leaves the bucket as it
    finds it, whether it succeeds or fails, and uploads nothing.
  */
  lemma SuccessSettles(buckets: seq<Bucket>, ws: seq<World>, coverage: Option<Coverage>,
                       rs: seq<Result<seq<Key>, Error>>, i: nat, j: nat)
    requires Chain(buckets, ws, coverage, rs) && i < j < |ws|
    requires rs[i].Success? && SourceOf(ws[j]) == SourceOf(ws[i])
    ensures buckets[j + 1] == buckets[j]
    ensures rs[j].Success? ==> rs[j].value == []
  {
    hide DestinationKeys;
    assert PassDoes(buckets[i], buckets[i + 1], ws[i], coverage, rs[i]);
    assert PassDoes(buckets[j], buckets[j + 1], ws[j], coverage, rs[j]);
    ChainKeeps(buckets, ws, coverage, rs, i + 1, j);
    assert Present(buckets[j], DestinationKeys(SourceOf(ws[i]).value, coverage));
  }

  /** Any sequence of passes, whatever fails in them. */
  method Passes(oss: Oss, ws: seq<World>, coverage: Option<Coverage>)
    returns (rs: seq<Result<seq<Key>, Error>>, ghost buckets: seq<Bucket>)
    modifies oss
    ensures Chain(buckets, ws, coverage, rs) && buckets[0] == old(oss.bucket) && buckets[|ws|] == oss.bucket
    ensures Placed(old(oss.bucket), coverage) ==> Placed(oss.bucket, coverage)
    ensures forall k :: k in old(oss.bucket) ==> k in oss.bucket && oss.bucket[k] == old(oss.bucket)[k]
  {
    rs, buckets := [], [oss.bucket];
    hide PassDoes, DestinationKeys;
    for n := 0 to |ws|
      invariant Chain(buckets, ws[..n], coverage, rs) && buckets[0] == old(oss.bucket) && buckets[n] == oss.bucket
    {
      var r := oss.RunOffsite(ws[n], coverage);
      rs, buckets := rs + [r], buckets + [oss.bucket];
      assert ws[..n + 1][..n] == ws[..n];
    }
    assert ws[..|ws|] == ws;
    ChainKeeps(buckets, ws, coverage, rs, 0, |ws|);
  }
}
