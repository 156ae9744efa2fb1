/** Minting the operator's token: the serving certificate and its published CA, then a fresh
    signing key's public set (the JWKS) and last the token signed with it. */
module Mint {
  import opened Wrappers

  /** Keys and certificates are told apart by a number never used before. */
  type Made = nat

  /** A Secret carries the issuer URL it was minted for as an annotation. */
  datatype TlsSecret = TlsSecret(mintedFor: Option<string>, ca: Option<Made>)
  datatype TokenSecret = TokenSecret(mintedFor: Option<string>, key: Made)
  datatype Jwks = Jwks(issuer: string, key: Made)

  /** The published CA, followed by the system's roots. */
  datatype CaBundle = CaBundle(ca: Made, roots: string)

  datatype Store = Store(
    tls: Option<TlsSecret>, caMap: Option<CaBundle>, token: Option<TokenSecret>, jwks: Option<Jwks>, made: nat)

  predicate TokenFor(s: Store, url: string) {
    s.token.Some? && s.token.value.mintedFor == Some(url)
  }

  /** The CA of a certificate issued for this URL, if it can be read. */
  function CurrentCa(s: Store, url: string): Option<Made> {
    if s.tls.Some? && s.tls.value.mintedFor == Some(url) then s.tls.value.ca else None
  }

  /** The published set holds the key the token was signed with. */
  predicate Served(s: Store) {
    s.token.Some? ==> s.jwks.Some? && s.jwks.value.key == s.token.value.key
  }

  predicate Known(s: Store) {
    && (s.token.Some? ==> s.token.value.key < s.made)
    && (s.jwks.Some? ==> s.jwks.value.key < s.made)
  }

  /** What ensuring the certificate may leave behind, wherever it stops. */
  predicate CertStep(s: Store, url: string, roots: string, t: Store, done: bool) {
    && t.token == s.token && t.jwks == s.jwks && t.made >= s.made
    && var ca := CurrentCa(t, url);
    && (t.tls == s.tls || (CurrentCa(s, url).None? && ca.Some? && ca.value >= s.made))
    && (t.caMap == s.caMap || (ca.Some? && t.caMap == Some(CaBundle(ca.value, roots))))
    && (done ==> ca.Some? && t.caMap == Some(CaBundle(ca.value, roots)))
  }

  /** What ensuring the token may leave behind: nothing new, a new JWKS, or the token too. */
  predicate TokenStep(s: Store, url: string, t: Store, done: bool) {
    && t.tls == s.tls && t.caMap == s.caMap && t.made >= s.made
    && (t.jwks == s.jwks ==> t.token == s.token)
    && (t.jwks != s.jwks ==>
          && !TokenFor(s, url)
          && t.jwks.Some? && t.jwks.value.issuer == url && s.made <= t.jwks.value.key < t.made
          && (t.token == s.token || t.token == Some(TokenSecret(Some(url), t.jwks.value.key))))
    && (done ==> TokenFor(t, url) && (t.jwks != s.jwks ==> t.token != s.token))
  }

  ghost predicate RunStep(s: Store, url: string, roots: string, t: Store, done: bool) {
    || (!done && CertStep(s, url, roots, t, false))
    || exists m :: CertStep(s, url, roots, m, true) && TokenStep(m, url, t, done)
  }

  class Cluster {
    var tls: Option<TlsSecret>
    var caMap: Option<CaBundle>
    var token: Option<TokenSecret>
    var jwks: Option<Jwks>
    var made: nat
    var faults: seq<Fate>
    /** How many calls have failed or gone unanswered. */
    ghost var failures: nat

    constructor (faults: seq<Fate>)
      ensures this.faults == faults && Contents() == Store(None, None, None, None, 0)
    {
      this.faults, tls, caMap, token, jwks, made := faults, None, None, None, None, 0;
    }

    function Contents(): Store
      reads this`tls, this`caMap, this`token, this`jwks, this`made
    {
      Store(tls, caMap, token, jwks, made)
    }

    method NextFate() returns (fate: Fate)
      modifies this`faults, this`failures
      ensures AllFine(old(faults)) ==> AllFine(faults) && fate == Fine
      ensures failures == old(failures) + if fate == Fine then 0 else 1
    {
      if faults == [] {
        return Fine;
      }
      fate, faults := faults[0], faults[1..];
      failures := failures + if fate == Fine then 0 else 1;
    }

    /** Issue the certificate unless there is one for this URL, and publish its CA. */
    method EnsureServingCert(url: string, roots: string) returns (done: bool)
      modifies this`tls, this`caMap, this`made, this`faults, this`failures
      ensures CertStep(old(Contents()), url, roots, Contents(), done)
      ensures AllFine(old(faults)) ==> AllFine(faults) && done
      ensures done ==> failures == old(failures)
    {
      var read := NextFate();
      if read != Fine {
        return false;
      }
      var ca: Made;
      if tls.Some? && tls.value.mintedFor == Some(url) && tls.value.ca.Some? {
        ca := tls.value.ca.value;
      } else {
        ca, made := made, made + 1;
        var write := NextFate();
        if write != Failed {
          tls := Some(TlsSecret(Some(url), Some(ca)));
        }
        if write != Fine {
          return false;
        }
      }
      var publish := NextFate();
      if publish != Failed {
        caMap := Some(CaBundle(ca, roots));
      }
      done := publish == Fine;
    }

    /** Publish a fresh key and then the token signed with it, unless there is a token for
        this URL already. */
    method EnsureToken(url: string) returns (done: bool)
      requires Known(Contents())
      modifies this`token, this`jwks, this`made, this`faults, this`failures
      ensures TokenStep(old(Contents()), url, Contents(), done)
      ensures AllFine(old(faults)) ==> AllFine(faults) && done
      ensures done ==> failures == old(failures)
    {
      var read := NextFate();
      if read != Fine {
        return false;
      }
      if token.Some? && token.value.mintedFor == Some(url) {
        return true;
      }
      var key := made;
      made := made + 1;
      var publish := NextFate();
      if publish != Failed {
        jwks := Some(Jwks(url, key));
      }
      if publish != Fine {
        return false;
      }
      var write := NextFate();
      if write != Failed {
        token := Some(TokenSecret(Some(url), key));
      }
      done := write == Fine;
    }

    /** One mint run, ended early by the first call that fails. */
    method MintRun(url: string, roots: string) returns (done: bool)
      requires Known(Contents())
      modifies this
      ensures RunStep(old(Contents()), url, roots, Contents(), done)
      ensures Known(Contents())
      ensures AllFine(old(faults)) ==> AllFine(faults) && done
      ensures done ==> failures == old(failures)
    {
      done := EnsureServingCert(url, roots);
      if done {
        done := EnsureToken(url);
      }
    }
  }

  // ----- Runs for one issuer URL -----

  /** A token for this URL is one the published set can verify. */
  predicate TokenVerifies(s: Store, url: string) {
    TokenFor(s, url) ==> s.jwks == Some(Jwks(url, s.token.value.key))
  }

  datatype Run = Run(url: string, roots: string, done: bool)

  ghost predicate StepAt(stores: seq<Store>, runs: seq<Run>, i: nat)
    requires |stores| == |runs| + 1 && i < |runs|
  {
    RunStep(stores[i], runs[i].url, runs[i].roots, stores[i + 1], runs[i].done)
  }

  ghost predicate History(stores: seq<Store>, runs: seq<Run>) {
    && |stores| == |runs| + 1 && Known(stores[0])
    && forall i: nat :: i < |runs| ==> StepAt(stores, runs, i)
  }

  predicate AllFor(runs: seq<Run>, url: string) {
    forall i :: 0 <= i < |runs| ==> runs[i].url == url
  }

  lemma RunKeeps(s: Store, url: string, roots: string, t: Store, done: bool)
    requires Known(s) && RunStep(s, url, roots, t, done)
    ensures Known(t)
    ensures TokenVerifies(s, url) ==> TokenVerifies(t, url)
    ensures TokenFor(s, url) ==> t.token == s.token && t.jwks == s.jwks
    ensures CurrentCa(s, url).Some? ==> t.tls == s.tls
  {
  }

  lemma {:induction false} KnownThroughout(stores: seq<Store>, runs: seq<Run>, i: nat)
    requires History(stores, runs) && i < |stores|
    ensures Known(stores[i])
  {
    if i > 0 {
      KnownThroughout(stores, runs, i - 1);
      assert StepAt(stores, runs, i - 1);
      RunKeeps(stores[i - 1], runs[i - 1].url, runs[i - 1].roots, stores[i], runs[i - 1].done);
    }
  }

  /** Over any runs for one URL, each cut off anywhere, a token for that URL is always one
      the published set can verify. */
  lemma {:induction false} TokenImpliesKey(stores: seq<Store>, runs: seq<Run>, url: string, i: nat)
    requires History(stores, runs) && AllFor(runs, url) && TokenVerifies(stores[0], url) && i < |stores|
    ensures TokenVerifies(stores[i], url)
  {
    if i > 0 {
      TokenImpliesKey(stores, runs, url, i - 1);
      KnownThroughout(stores, runs, i - 1);
      assert StepAt(stores, runs, i - 1);
      RunKeeps(stores[i - 1], url, runs[i - 1].roots, stores[i], runs[i - 1].done);
    }
  }

  /** Once a run has completed, the token, the key set, the certificate and the published CA
      agree, and later runs for the URL change none but the system roots. */
  lemma {:induction false} CompletedRunLasts(stores: seq<Store>, runs: seq<Run>, url: string, i: nat, j: nat)
    requires History(stores, runs) && AllFor(runs, url) && TokenVerifies(stores[0], url)
    requires i < j < |stores| && runs[i].done
    ensures TokenFor(stores[j], url) && stores[j].jwks == Some(Jwks(url, stores[j].token.value.key))
    ensures CurrentCa(stores[j], url).Some? && stores[j].caMap.Some?
    ensures stores[j].caMap.value.ca == CurrentCa(stores[j], url).value
    ensures stores[j].token == stores[i + 1].token
    ensures stores[j].jwks == stores[i + 1].jwks && stores[j].tls == stores[i + 1].tls
    decreases j
  {
    TokenImpliesKey(stores, runs, url, j);
    assert StepAt(stores, runs, j - 1);
    KnownThroughout(stores, runs, j - 1);
    if j > i + 1 {
      CompletedRunLasts(stores, runs, url, i, j - 1);
    }
    RunKeeps(stores[j - 1], url, runs[j - 1].roots, stores[j], runs[j - 1].done);
  }

  // ----- A change of issuer URL -----

  /** Old token, new key set: a re-mint stopped between its two writes. */
  predicate CutBetween(s: Store, t: Store) {
    s.token.Some? && t.token == s.token && t.jwks != s.jwks
  }

  lemma ServedAfter(s: Store, url: string, roots: string, t: Store, done: bool)
    requires Known(s) && Served(s) && RunStep(s, url, roots, t, done)
    ensures Served(t) <==> !CutBetween(s, t)
  {
  }

  /** Over any runs for any URLs, the stored token stays verifiable throughout exactly when no
      run for another URL stops between its two writes. */
  lemma {:induction false} ServedThroughout(stores: seq<Store>, runs: seq<Run>, n: nat)
    requires History(stores, runs) && Served(stores[0]) && n < |stores|
    ensures (forall i :: 0 <= i <= n ==> Served(stores[i])) <==> (forall i: nat :: i < n ==> !CutAt(stores, i))
    ensures forall i: nat :: i < n && CutAt(stores, i) ==> !runs[i].done && !TokenFor(stores[i], runs[i].url)
  {
    if n > 0 {
      ServedThroughout(stores, runs, n - 1);
      KnownThroughout(stores, runs, n - 1);
      assert StepAt(stores, runs, n - 1);
      var run := runs[n - 1];
      CutIsUnfinished(stores[n - 1], run.url, run.roots, stores[n], run.done);
      if Served(stores[n - 1]) {
        ServedAfter(stores[n - 1], run.url, run.roots, stores[n], run.done);
      }
      assert CutAt(stores, n - 1) <==> CutBetween(stores[n - 1], stores[n]);
    }
  }

  lemma CutIsUnfinished(s: Store, url: string, roots: string, t: Store, done: bool)
    requires RunStep(s, url, roots, t, done)
    ensures CutBetween(s, t) ==> !done && !TokenFor(s, url)
  {
  }

  predicate CutAt(stores: seq<Store>, i: nat)
    requires i + 1 < |stores|
  {
    CutBetween(stores[i], stores[i + 1])
  }

  /** A completed run for the new URL repairs it. */
  lemma CompletedRunRepairs(s: Store, url: string, roots: string, t: Store)
    requires Known(s) && !TokenFor(s, url) && RunStep(s, url, roots, t, true)
    ensures Served(t) && TokenFor(t, url)
  {
  }

  /** Runs for the old URL never do. */
  lemma {:induction false} OldUrlNeverRepairs(stores: seq<Store>, runs: seq<Run>, url: string, i: nat)
    requires History(stores, runs) && AllFor(runs, url)
    requires TokenFor(stores[0], url) && !Served(stores[0]) && i < |stores|
    ensures stores[i].token == stores[0].token && stores[i].jwks == stores[0].jwks && !Served(stores[i])
  {
    if i > 0 {
      OldUrlNeverRepairs(stores, runs, url, i - 1);
      KnownThroughout(stores, runs, i - 1);
      assert StepAt(stores, runs, i - 1);
      RunKeeps(stores[i - 1], url, runs[i - 1].roots, stores[i], runs[i - 1].done);
    }
  }

  /** That can happen: mint for one URL, switch, stop between the writes, switch back. */
  lemma SwitchAndBackLosesToken(
      url: string, another: string, roots: string)
    returns (stores: seq<Store>, runs: seq<Run>)
    requires url != another
    ensures History(stores, runs) && |runs| == 2 && runs[0] == Run(url, roots, true)
    ensures runs[1] == Run(another, roots, false)
    ensures stores[0] == Store(None, None, None, None, 0)
    ensures TokenFor(stores[2], url) && !Served(stores[2])
  {
    var s0 := Store(None, None, None, None, 0);
    var m0 := Store(Some(TlsSecret(Some(url), Some(0))), Some(CaBundle(0, roots)), None, None, 1);
    var s1 := m0.(token := Some(TokenSecret(Some(url), 1)), jwks := Some(Jwks(url, 1)), made := 2);
    var m1 := s1.(tls := Some(TlsSecret(Some(another), Some(2))), caMap := Some(CaBundle(2, roots)), made := 3);
    var s2 := m1.(jwks := Some(Jwks(another, 3)), made := 4);
    assert CertStep(s0, url, roots, m0, true) && TokenStep(m0, url, s1, true);
    assert CertStep(s1, another, roots, m1, true) && TokenStep(m1, another, s2, false);
    stores, runs := [s0, s1, s2], [Run(url, roots, true), Run(another, roots, false)];
    assert StepAt(stores, runs, 0) && StepAt(stores, runs, 1);
  }

  // ----- Writes that land late -----

  /** A write of an earlier run that failed, and takes effect after all. */
  datatype LateWrite = LateJwks(jwks: Jwks) | LateToken(token: TokenSecret)

  function LandLate(s: Store, w: LateWrite): Store {
    match w
    case LateJwks(jwks) => s.(jwks := Some(jwks))
    case LateToken(token) => s.(token := Some(token))
  }

  /** A write some run for this URL may have sent. */
  predicate SentFor(s: Store, url: string, w: LateWrite) {
    match w
    case LateJwks(jwks) => jwks.issuer == url && jwks.key < s.made
    case LateToken(token) => token.mintedFor == Some(url) && token.key < s.made
  }

  /** A late key set does no harm before there is a token for the URL, or if it is the one
      published; a late token, if its own key is still the one published. */
  predicate ComesInTime(s: Store, url: string, w: LateWrite) {
    match w
    case LateJwks(jwks) => !TokenFor(s, url) || s.jwks == Some(jwks)
    case LateToken(token) => s.jwks == Some(Jwks(url, token.key))
  }

  datatype Event = Ran(run: Run) | Landed(write: LateWrite)

  ghost predicate EventAt(stores: seq<Store>, events: seq<Event>, url: string, i: nat)
    requires |stores| == |events| + 1 && i < |events|
  {
    var s, t := stores[i], stores[i + 1];
    match events[i]
    case Ran(run) => run.url == url && RunStep(s, url, run.roots, t, run.done)
    case Landed(w) => SentFor(s, url, w) && t == LandLate(s, w)
  }

  ghost predicate Chronicle(stores: seq<Store>, events: seq<Event>, url: string) {
    && |stores| == |events| + 1 && Known(stores[0])
    && forall i: nat :: i < |events| ==> EventAt(stores, events, url, i)
  }

  predicate InTimeAt(stores: seq<Store>, events: seq<Event>, url: string, i: nat)
    requires |stores| == |events| + 1 && i < |events|
  {
    events[i].Landed? ==> ComesInTime(stores[i], url, events[i].write)
  }

  lemma EventKeeps(stores: seq<Store>, events: seq<Event>, url: string, i: nat)
    requires |stores| == |events| + 1 && i < |events| && EventAt(stores, events, url, i) && Known(stores[i])
    ensures Known(stores[i + 1])
    ensures TokenVerifies(stores[i], url) ==> (TokenVerifies(stores[i + 1], url) <==> InTimeAt(stores, events, url, i))
  {
    if events[i].Ran? {
      RunKeeps(stores[i], url, events[i].run.roots, stores[i + 1], events[i].run.done);
    }
  }

  lemma {:induction false} AllKnown(stores: seq<Store>, events: seq<Event>, url: string, n: nat)
    requires Chronicle(stores, events, url) && n < |stores|
    ensures Known(stores[n])
  {
    if n > 0 {
      AllKnown(stores, events, url, n - 1);
      assert EventAt(stores, events, url, n - 1);
      EventKeeps(stores, events, url, n - 1);
    }
  }

  /** Over any runs for one URL, and any of their writes landing late, a token for the URL is
      one the published set verifies throughout, exactly if every late write comes in time. */
  lemma {:induction false} VerifiesThroughout(stores: seq<Store>, events: seq<Event>, url: string, n: nat)
    requires Chronicle(stores, events, url) && TokenVerifies(stores[0], url) && n < |stores|
    ensures (forall i :: 0 <= i <= n ==> TokenVerifies(stores[i], url)) <==>
      (forall i: nat :: i < n ==> InTimeAt(stores, events, url, i))
  {
    if n > 0 {
      VerifiesThroughout(stores, events, url, n - 1);
      AllKnown(stores, events, url, n - 1);
      assert EventAt(stores, events, url, n - 1);
      EventKeeps(stores, events, url, n - 1);
    }
  }

  /** It can come too late: a key set that times out, a retry that publishes its own key and
      token, and then the first key set. No later run for the URL repairs that. */
  lemma LateKeySetLosesToken(url: string, roots: string) returns (stores: seq<Store>, events: seq<Event>)
    ensures Chronicle(stores, events, url) && stores[0] == Store(None, None, None, None, 0)
    ensures |events| == 3 && events[0] == Ran(Run(url, roots, false)) && events[1] == Ran(Run(url, roots, true))
    ensures events[2].Landed? && TokenFor(stores[3], url) && !Served(stores[3])
  {
    var s0 := Store(None, None, None, None, 0);
    var s1 := Store(Some(TlsSecret(Some(url), Some(0))), Some(CaBundle(0, roots)), None, None, 2);
    var s2 := s1.(token := Some(TokenSecret(Some(url), 2)), jwks := Some(Jwks(url, 2)), made := 3);
    var late := LateJwks(Jwks(url, 1));
    assert CertStep(s0, url, roots, s1, true) && TokenStep(s1, url, s1, false);
    assert CertStep(s1, url, roots, s1, true) && TokenStep(s1, url, s2, true);
    stores := [s0, s1, s2, LandLate(s2, late)];
    events := [Ran(Run(url, roots, false)), Ran(Run(url, roots, true)), Landed(late)];
    assert EventAt(stores, events, url, 0) && EventAt(stores, events, url, 1) && EventAt(stores, events, url, 2);
  }
}
