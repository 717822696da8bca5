/**
 The sliding-window request limiter: one deque of accepted times per client and bucket,
 evicted from the left on every request.
 */
module RateLimiting {
  import opened Wrappers

  const WINDOW_SECONDS := 60.0

  datatype Bucket = Auth | General

  /** Whose window a request counts against; `ip` stands for the client address. */
  datatype Client = Client(ip: nat, bucket: Bucket)

  datatype Request = Request(path: string, ip: nat, now: real)

  datatype Config = Config(enabled: bool, perMinute: int, authPerMinute: int)

  /** What the limiter does: let through uncounted, count and serve, refuse, or fail. */
  datatype Reply = Uncounted | Served | Refused(retryAfter: int) | IndexError

  predicate StartsWith(s: string, prefix: string) {
    prefix <= s
  }

  predicate Probe(path: string) {
    path == "/health" || path == "/health/ready"
  }

  function ClientOf(r: Request): Client {
    Client(r.ip, if StartsWith(r.path, "/api/v1/auth/") then Auth else General)
  }

  function LimitOf(config: Config, bucket: Bucket): int {
    if bucket.Auth? then config.authPerMinute else config.perMinute
  }

  predicate Counted(config: Config, r: Request) {
    config.enabled && !Probe(r.path)
  }

  function WindowOf(windows: map<Client, seq<real>>, client: Client): seq<real> {
    if client in windows then windows[client] else []
  }

  function Evicted(window: seq<real>, cutoff: real): seq<real> {
    if window != [] && window[0] < cutoff then Evicted(window[1..], cutoff) else window
  }

  /** Truncation toward zero, the conversion of a float to an integer. */
  function Truncated(x: real): int {
    if x >= 0.0 then x.Floor else -(-x).Floor
  }

  /** The answer to a request that finds this window after eviction. */
  function Decision(window: seq<real>, limit: int, now: real): Reply {
    if |window| < limit then Served
    else if window == [] then IndexError
    else Refused(Truncated(WINDOW_SECONDS - (now - window[0])))
  }

  /** The answer to a request over the windows it finds. */
  function AnswerTo(config: Config, windows: map<Client, seq<real>>, r: Request): Reply {
    if !Counted(config, r) then Uncounted else
    var client := ClientOf(r);
    Decision(Evicted(WindowOf(windows, client), r.now - WINDOW_SECONDS), LimitOf(config, client.bucket), r.now)
  }

  class RateLimitMiddleware {
    const config: Config
    var windows: map<Client, seq<real>>

    constructor (config: Config)
      ensures this.config == config && windows == map[]
    {
      this.config := config;
      windows := map[];
    }

    method Dispatch(r: Request) returns (reply: Reply)
      modifies this
      ensures reply == AnswerTo(config, old(windows), r) && windows == Handled(config, old(windows), r)
      ensures !Counted(config, r) ==> reply == Uncounted && windows == old(windows)
      ensures Counted(config, r) ==>
                var client, limit := ClientOf(r), LimitOf(config, ClientOf(r).bucket);
                var window := Evicted(WindowOf(old(windows), client), r.now - WINDOW_SECONDS);
                && reply == Decision(window, limit, r.now)
                && windows == old(windows)[client := if reply.Served? then window + [r.now] else window]
    {
      if !config.enabled || r.path == "/health" || r.path == "/health/ready" {
        return Uncounted;
      }
      var client := ClientOf(r);
      var limit := LimitOf(config, client.bucket);
      windows := windows[client := WindowOf(windows, client)];
      var cutoff := r.now - WINDOW_SECONDS;
      while windows[client] != [] && windows[client][0] < cutoff
        invariant client in windows && windows == old(windows)[client := windows[client]]
        invariant Evicted(windows[client], cutoff) == Evicted(WindowOf(old(windows), client), cutoff)
        decreases |windows[client]|
      {
        windows := windows[client := windows[client][1..]];
      }
      var window := windows[client];
      if |window| >= limit {
        if window == [] {
          return IndexError;
        }
        return Refused(Truncated(WINDOW_SECONDS - (r.now - window[0])));
      }
      windows := windows[client := window + [r.now]];
      return Served;
    }
  }

  // ---- One client ---------------------------------------------------------

  /** The window and every time ever accepted, for one client. */
  datatype Ledger = Ledger(window: seq<real>, accepted: seq<real>)

  function Answered(l: Ledger, limit: int, now: real): Ledger {
    var window := Evicted(l.window, now - WINDOW_SECONDS);
    if Decision(window, limit, now).Served?
    then Ledger(window + [now], l.accepted + [now])
    else Ledger(window, l.accepted)
  }

  /** The ledger after the first `n` requests of one client. */
  function Serve(times: seq<real>, limit: int, n: nat): Ledger
    requires n <= |times|
  {
    if n == 0 then Ledger([], []) else Answered(Serve(times, limit, n - 1), limit, times[n - 1])
  }

  ghost predicate Sorted(s: seq<real>) {
    forall i, j :: 0 <= i < j < |s| ==> s[i] <= s[j]
  }

  /** The window is exactly the accepted times of the last sixty seconds, both ends included. */
  ghost predicate Exact(l: Ledger, limit: int, now: real) {
    var gone := |l.accepted| - |l.window|;
    && 0 <= gone && l.window == l.accepted[gone..]
    && |l.window| <= limit
    && (forall i :: 0 <= i < gone ==> l.accepted[i] < now - WINDOW_SECONDS)
    && (forall i :: gone <= i < |l.accepted| ==> now - WINDOW_SECONDS <= l.accepted[i] <= now)
  }

  ghost predicate Spaced(accepted: seq<real>, limit: nat) {
    forall i :: 0 <= i < |accepted| - limit ==> GapAfter(accepted, limit, i)
  }

  ghost predicate GapAfter(accepted: seq<real>, limit: nat, i: nat)
    requires i + limit < |accepted|
  {
    accepted[i + limit] - accepted[i] > WINDOW_SECONDS
  }

  lemma {:induction false} EvictionIsASuffix(window: seq<real>, cutoff: real) returns (k: nat)
    ensures k <= |window| && Evicted(window, cutoff) == window[k..]
    ensures forall i :: 0 <= i < k ==> window[i] < cutoff
    ensures k < |window| ==> window[k] >= cutoff
  {
    if window != [] && window[0] < cutoff {
      var rest := EvictionIsASuffix(window[1..], cutoff);
      k := rest + 1;
      assert forall i :: 1 <= i < |window| ==> window[i] == window[1..][i - 1];
    } else {
      k := 0;
    }
  }

  lemma {:induction false} EvictionIsExact(l: Ledger, limit: nat, before: real, now: real)
    requires Exact(l, limit, before) && Sorted(l.accepted) && before <= now
    ensures Exact(Ledger(Evicted(l.window, now - WINDOW_SECONDS), l.accepted), limit, now)
  {
    var k := EvictionIsASuffix(l.window, now - WINDOW_SECONDS);
    var gone := |l.accepted| - |l.window|;
    SuffixOfSuffix(l.accepted, gone, k);
    forall i | 0 <= i < gone + k
      ensures l.accepted[i] < now - WINDOW_SECONDS
    {
      assert i >= gone ==> l.accepted[i] == l.window[i - gone];
    }
    forall i | gone + k <= i < |l.accepted|
      ensures now - WINDOW_SECONDS <= l.accepted[i] <= now
    {
      assert l.accepted[gone + k] == l.window[k];
      assert i > gone + k ==> l.accepted[gone + k] <= l.accepted[i];
    }
  }

  lemma {:induction false} SuffixOfSuffix(s: seq<real>, m: nat, k: nat)
    requires m + k <= |s|
    ensures s[m..][k..] == s[m + k..]
  {
  }

  lemma {:induction false} AcceptanceKeepsOrder(l: Ledger, limit: nat, now: real)
    requires limit > 0 && Exact(l, limit, now) && Sorted(l.accepted) && Spaced(l.accepted, limit)
    requires |l.window| < limit
    ensures var after := Ledger(l.window + [now], l.accepted + [now]);
            Exact(after, limit, now) && Sorted(after.accepted) && Spaced(after.accepted, limit)
  {
    var accepted, n := l.accepted + [now], |l.accepted|;
    assert forall i :: 0 <= i < n ==> accepted[i] == l.accepted[i];
    assert l.window + [now] == accepted[n - |l.window|..];
    forall i | 0 <= i < |accepted| - limit
      ensures GapAfter(accepted, limit, i)
    {
      if i + limit < n {
        assert GapAfter(l.accepted, limit, i);
      }
    }
  }

  lemma {:induction false} AnswerIsExact(l: Ledger, limit: nat, before: real, now: real)
    requires limit > 0 && before <= now
    requires Exact(l, limit, before) && Sorted(l.accepted) && Spaced(l.accepted, limit)
    ensures var after := Answered(l, limit, now);
            Exact(after, limit, now) && Sorted(after.accepted) && Spaced(after.accepted, limit)
  {
    EvictionIsExact(l, limit, before, now);
    var evicted := Ledger(Evicted(l.window, now - WINDOW_SECONDS), l.accepted);
    if |evicted.window| < limit {
      AcceptanceKeepsOrder(evicted, limit, now);
    }
  }

  /**
   The sliding window is exact for any non-decreasing request times and positive limit:
   the deque holds exactly the accepted times of the last sixty seconds and never more than
   the limit, and any two acceptances `limit` apart are more than sixty seconds apart.
   */
  lemma {:induction false} WindowIsExact(times: seq<real>, limit: nat, n: nat)
    requires limit > 0 && 0 < n <= |times| && Sorted(times)
    ensures var l := Serve(times, limit, n);
            Exact(l, limit, times[n - 1]) && Sorted(l.accepted) && Spaced(l.accepted, limit)
  {
    if n == 1 {
      AnswerIsExact(Ledger([], []), limit, times[0], times[0]);
    } else {
      WindowIsExact(times, limit, n - 1);
      AnswerIsExact(Serve(times, limit, n - 1), limit, times[n - 2], times[n - 1]);
    }
  }

  function ReplyTo(times: seq<real>, limit: int, n: nat): Reply
    requires n < |times|
  {
    ReplyFrom(Serve(times, limit, n), limit, times[n])
  }

  function ReplyFrom(l: Ledger, limit: int, now: real): Reply {
    Decision(Evicted(l.window, now - WINDOW_SECONDS), limit, now)
  }

  /** A request is refused exactly when `limit` requests were accepted in the last sixty seconds. */
  lemma {:induction false} RefusedIffWindowFull(times: seq<real>, limit: nat, n: nat)
    requires limit > 0 && n < |times| && Sorted(times)
    ensures var accepted := Serve(times, limit, n).accepted;
            && (ReplyTo(times, limit, n).Refused? <==>
                |accepted| >= limit && accepted[|accepted| - limit] >= times[n] - WINDOW_SECONDS)
            && (ReplyTo(times, limit, n).Refused? || ReplyTo(times, limit, n).Served?)
  {
    var before := if n == 0 then times[0] else times[n - 1];
    LedgerIsExact(times, limit, n, before);
    FullIff(Serve(times, limit, n), limit, before, times[n]);
  }

  lemma {:induction false} LedgerIsExact(times: seq<real>, limit: nat, n: nat, before: real)
    requires limit > 0 && n < |times| && Sorted(times) && before == if n == 0 then times[0] else times[n - 1]
    ensures Exact(Serve(times, limit, n), limit, before) && Sorted(Serve(times, limit, n).accepted)
    ensures before <= times[n]
  {
    if n > 0 {
      WindowIsExact(times, limit, n);
    }
  }

  lemma {:induction false} FullIff(l: Ledger, limit: nat, before: real, now: real)
    requires limit > 0 && before <= now && Exact(l, limit, before) && Sorted(l.accepted)
    ensures var cutoff, n := now - WINDOW_SECONDS, |l.accepted|;
            var reply := ReplyFrom(l, limit, now);
            && (reply.Refused? || reply.Served?)
            && (reply.Refused? <==> n >= limit && l.accepted[n - limit] >= cutoff)
  {
    EvictionIsExact(l, limit, before, now);
  }

  /** A limit of zero or less fails on every request instead of refusing it. */
  lemma {:induction false} NonPositiveLimitAlwaysFails(times: seq<real>, limit: int, n: nat)
    requires limit <= 0 && n < |times|
    ensures ReplyTo(times, limit, n) == IndexError && Serve(times, limit, n) == Ledger([], [])
  {
    if n > 0 {
      NonPositiveLimitAlwaysFails(times, limit, n - 1);
    }
  }

  // ---- The retry hint -----------------------------------------------------

  /**
   A refused client that stays quiet is served again exactly from the moment the oldest of
   the last `limit` accepted times is more than sixty seconds old.
   */
  lemma {:induction false} ServedAgainIff(times: seq<real>, limit: nat, n: nat)
    requires limit > 0 && n + 1 < |times| && Sorted(times) && ReplyTo(times, limit, n).Refused?
    ensures var window := Serve(times, limit, n + 1).window;
            && |window| == limit
            && (ReplyTo(times, limit, n + 1).Served? <==> times[n + 1] - window[0] > WINDOW_SECONDS)
  {
    WindowIsExact(times, limit, n + 1);
    RefusedIffWindowFull(times, limit, n + 1);
    var l := Serve(times, limit, n + 1);
    assert l.window[0] == l.accepted[|l.accepted| - limit];
  }

  /** The hint in the refusal is always too early: a quiet client that waits exactly that long is refused again. */
  lemma {:induction false} RetryHintIsTooEarly(times: seq<real>, limit: nat, n: nat)
    requires limit > 0 && n + 1 < |times| && Sorted(times) && ReplyTo(times, limit, n).Refused?
    requires times[n + 1] <= times[n] + ReplyTo(times, limit, n).retryAfter as real
    ensures ReplyTo(times, limit, n + 1).Refused?
  {
    ServedAgainIff(times, limit, n);
    WindowIsExact(times, limit, n + 1);
    RefusedIffWindowFull(times, limit, n + 1);
    var window := Serve(times, limit, n + 1).window;
    assert window == Evicted(Serve(times, limit, n).window, times[n] - WINDOW_SECONDS);
    var left := WINDOW_SECONDS - (times[n] - window[0]);
    assert ReplyTo(times, limit, n).retryAfter as real <= left;
  }

  /** The hint is the whole seconds left until the oldest of the last `limit` accepted times is sixty seconds old. */
  lemma {:induction false} RetryHintIsTheTimeLeft(times: seq<real>, limit: nat, n: nat)
    requires limit > 0 && n < |times| && Sorted(times) && ReplyTo(times, limit, n).Refused?
    ensures var accepted, hint := Serve(times, limit, n).accepted, ReplyTo(times, limit, n).retryAfter;
            && |accepted| >= limit
            && var left := accepted[|accepted| - limit] + 60.0 - times[n];
               hint as real <= left < hint as real + 1.0 && 0 <= hint <= 60
  {
    RefusedIffWindowFull(times, limit, n);
    var before := times[if n == 0 then 0 else n - 1];
    LedgerIsExact(times, limit, n, before);
    HintIsTheTimeLeft(Serve(times, limit, n), limit, before, times[n]);
  }

  lemma {:induction false} HintIsTheTimeLeft(l: Ledger, limit: nat, before: real, now: real)
    requires limit > 0 && before <= now && Exact(l, limit, before) && Sorted(l.accepted)
    requires ReplyFrom(l, limit, now).Refused? && |l.accepted| >= limit
    ensures var left, hint := l.accepted[|l.accepted| - limit] + 60.0 - now, ReplyFrom(l, limit, now).retryAfter;
            hint as real <= left < hint as real + 1.0 && 0 <= hint <= 60
  {
    EvictionIsExact(l, limit, before, now);
    var window := Evicted(l.window, now - WINDOW_SECONDS);
    assert |window| == limit && window[0] == l.accepted[|l.accepted| - limit];
    assert now - WINDOW_SECONDS <= window[0] <= now;
  }

  // ---- Many clients -------------------------------------------------------

  function Handled(config: Config, windows: map<Client, seq<real>>, r: Request): map<Client, seq<real>> {
    if !Counted(config, r) then windows else
    var client := ClientOf(r);
    var window := Evicted(WindowOf(windows, client), r.now - WINDOW_SECONDS);
    windows[client := if Decision(window, LimitOf(config, client.bucket), r.now).Served?
                      then window + [r.now] else window]
  }

  function Run(config: Config, requests: seq<Request>, n: nat): map<Client, seq<real>>
    requires n <= |requests|
  {
    if n == 0 then map[] else Handled(config, Run(config, requests, n - 1), requests[n - 1])
  }

  /** The times of the requests that count against one client. */
  function TimesOf(config: Config, requests: seq<Request>, n: nat, client: Client): seq<real>
    requires n <= |requests|
  {
    if n == 0 then [] else
    TimesOf(config, requests, n - 1, client) +
    if Counted(config, requests[n - 1]) && ClientOf(requests[n - 1]) == client then [requests[n - 1].now] else []
  }

  lemma {:induction false} ServePrefix(times: seq<real>, more: seq<real>, limit: int, n: nat)
    requires n <= |times|
    ensures Serve(times + more, limit, n) == Serve(times, limit, n)
  {
    if n > 0 {
      ServePrefix(times, more, limit, n - 1);
      assert (times + more)[n - 1] == times[n - 1];
    }
  }

  /** Clients do not interfere: each window is the one its own requests alone would leave. */
  lemma {:induction false} ClientsAreIndependent(config: Config, requests: seq<Request>, n: nat, client: Client)
    requires n <= |requests|
    ensures var times := TimesOf(config, requests, n, client);
            WindowOf(Run(config, requests, n), client)
            == Serve(times, LimitOf(config, client.bucket), |times|).window
  {
    if n > 0 {
      ClientsAreIndependent(config, requests, n - 1, client);
      var times, r := TimesOf(config, requests, n - 1, client), requests[n - 1];
      if Counted(config, r) && ClientOf(r) == client {
        OwnRequest(config, Run(config, requests, n - 1), r, times);
      } else {
        OtherRequest(config, Run(config, requests, n - 1), r, client);
        assert times + [] == times;
      }
    }
  }

  lemma {:induction false} OwnRequest(config: Config, windows: map<Client, seq<real>>, r: Request, times: seq<real>)
    requires Counted(config, r)
    requires WindowOf(windows, ClientOf(r)) == Serve(times, LimitOf(config, ClientOf(r).bucket), |times|).window
    ensures WindowOf(Handled(config, windows, r), ClientOf(r))
            == Serve(times + [r.now], LimitOf(config, ClientOf(r).bucket), |times + [r.now]|).window
  {
    ServePrefix(times, [r.now], LimitOf(config, ClientOf(r).bucket), |times|);
    assert (times + [r.now])[|times|] == r.now;
  }

  lemma {:induction false} OtherRequest(config: Config, windows: map<Client, seq<real>>, r: Request, client: Client)
    requires !Counted(config, r) || ClientOf(r) != client
    ensures WindowOf(Handled(config, windows, r), client) == WindowOf(windows, client)
  {
  }

  // ---- What a request is counted against ----------------------------------

  ghost predicate IsAuth(path: string) {
    exists rest :: path == "/api/v1/auth/" + rest
  }

  /** The two requests count against one window: neither is a probe, same address, both for authentication or neither. */
  ghost predicate SharesWindow(config: Config, r: Request, q: Request) {
    && config.enabled && r.path != "/health" && r.path != "/health/ready"
    && r.ip == q.ip && (IsAuth(r.path) <==> IsAuth(q.path))
  }

  lemma {:induction false} AuthIsThePrefix(path: string)
    ensures IsAuth(path) <==> StartsWith(path, "/api/v1/auth/")
  {
    var prefix := "/api/v1/auth/";
    if StartsWith(path, prefix) {
      assert path == prefix + path[|prefix|..];
    }
  }

  lemma {:induction false} SharingIff(config: Config, r: Request, q: Request)
    ensures SharesWindow(config, r, q) <==> Counted(config, r) && ClientOf(r) == ClientOf(q)
  {
    AuthIsThePrefix(r.path);
    AuthIsThePrefix(q.path);
  }

  /** When the requests before the `n`-th that share a window with `q` were served. */
  ghost function ServedBefore(config: Config, requests: seq<Request>, n: nat, q: Request): seq<real>
    requires n <= |requests|
  {
    if n == 0 then [] else
    var r := requests[n - 1];
    ServedBefore(config, requests, n - 1, q) +
    if SharesWindow(config, r, q) && AnswerTo(config, Run(config, requests, n - 1), r) == Served then [r.now] else []
  }

  lemma {:induction false} OneMoreServed(config: Config, windows: map<Client, seq<real>>, r: Request, times: seq<real>)
    requires Counted(config, r)
    requires WindowOf(windows, ClientOf(r)) == Serve(times, LimitOf(config, ClientOf(r).bucket), |times|).window
    ensures var limit := LimitOf(config, ClientOf(r).bucket);
            Serve(times + [r.now], limit, |times + [r.now]|).accepted
            == Serve(times, limit, |times|).accepted + if AnswerTo(config, windows, r) == Served then [r.now] else []
  {
    ServePrefix(times, [r.now], LimitOf(config, ClientOf(r).bucket), |times|);
    assert (times + [r.now])[|times|] == r.now;
  }

  lemma {:induction false} AcceptedAreServed(config: Config, requests: seq<Request>, n: nat, q: Request)
    requires n <= |requests|
    ensures var client := ClientOf(q);
            var times := TimesOf(config, requests, n, client);
            Serve(times, LimitOf(config, client.bucket), |times|).accepted == ServedBefore(config, requests, n, q)
  {
    if n > 0 {
      var client, r := ClientOf(q), requests[n - 1];
      var times := TimesOf(config, requests, n - 1, client);
      AcceptedAreServed(config, requests, n - 1, q);
      SharingIff(config, r, q);
      if Counted(config, r) && ClientOf(r) == client {
        ClientsAreIndependent(config, requests, n - 1, client);
        OneMoreServed(config, Run(config, requests, n - 1), r, times);
      } else {
        assert times + [] == times;
      }
    }
  }

  ghost predicate InOrder(requests: seq<Request>) {
    forall i, j :: 0 <= i < j < |requests| ==> requests[i].now <= requests[j].now
  }

  lemma {:induction false} TimesAreSorted(config: Config, requests: seq<Request>, n: nat, client: Client)
    requires n <= |requests| && InOrder(requests)
    ensures Sorted(TimesOf(config, requests, n, client))
    ensures forall i, k :: 0 <= i < |TimesOf(config, requests, n, client)| && n <= k < |requests| ==>
              TimesOf(config, requests, n, client)[i] <= requests[k].now
  {
    if n > 0 {
      TimesAreSorted(config, requests, n - 1, client);
    }
  }

  /**
   Over every ordered run of requests, a counted request is refused exactly when the requests that share
   its window filled its own limit within the last sixty seconds: the authentication limit for a path
   under /api/v1/auth/, the general one for any other.
   */
  lemma {:induction false} RequestIsRefusedIff(config: Config, requests: seq<Request>, n: nat)
    requires n < |requests| && InOrder(requests) && config.perMinute > 0 && config.authPerMinute > 0
    ensures var q, reply := requests[n], AnswerTo(config, Run(config, requests, n), requests[n]);
            var accepted := ServedBefore(config, requests, n, q);
            var limit := if IsAuth(q.path) then config.authPerMinute else config.perMinute;
            if SharesWindow(config, q, q) then
              && (reply.Refused? <==> |accepted| >= limit && accepted[|accepted| - limit] >= q.now - 60.0)
              && (reply.Refused? || reply.Served?)
            else reply == Uncounted
  {
    var q := requests[n];
    SharingIff(config, q, q);
    AuthIsThePrefix(q.path);
    if Counted(config, q) {
      var client := ClientOf(q);
      var times, limit := TimesOf(config, requests, n, client), LimitOf(config, client.bucket);
      AcceptedAreServed(config, requests, n, q);
      ClientsAreIndependent(config, requests, n, client);
      TimesAreSorted(config, requests, n + 1, client);
      ServePrefix(times, [q.now], limit, |times|);
      assert TimesOf(config, requests, n + 1, client) == times + [q.now];
      RefusedIffWindowFull(times + [q.now], limit, |times|);
    }
  }
}
