/**
  The in-memory authentication-token store (`auth_tokens`) and the gate
  that every protected route passes through (`createAuthToken`,
  `verifyAuthToken`). The store maps a token id to the time it was issued.
 */
module AuthTokens {
  import opened Common

  /** What the gate decides for one request. */
  datatype Verdict = NoToken | Invalid | Admit

  /** The body of the reply to an issue request. */
  datatype IssuedToken = IssuedToken(token: string, timestamp: int)

  /** One request seen by the store: an issue or a verification. */
  datatype Event = Issued(id: string, at: int) | Verified(header: Option<string>, at: int)

  /** Staleness; the time-to-live is a configuration parameter. */
  predicate IsStale(now: int, issued: int, ttl: nat)
  {
    now - issued > ttl
  }

  /** A `token` header counts only when it is truthy, i.e. a non-empty string. */
  predicate HeaderPresent(header: Option<string>)
  {
    header.Some? && header.value != ""
  }

  /** The stored timestamp is truthy (present and non-zero) and not stale at `now`. */
  predicate Live(tokens: map<string, int>, t: string, now: int, ttl: nat)
  {
    t in tokens && tokens[t] != 0 && !IsStale(now, tokens[t], ttl)
  }

  /** The decision of the gate on a store. */
  function Judge(tokens: map<string, int>, header: Option<string>, now: int, ttl: nat): Verdict
  {
    if !HeaderPresent(header) then NoToken
    else if Live(tokens, header.value, now, ttl) then Admit
    else Invalid
  }

  /** The store after one event: an issue records the id; a rejected token is removed. */
  function Step(tokens: map<string, int>, e: Event, ttl: nat): map<string, int>
  {
    match e
    case Issued(id, at) => tokens[id := at]
    case Verified(header, at) =>
      if Judge(tokens, header, at, ttl) == Invalid then tokens - {header.value} else tokens
  }

  /** The store after a sequence of events, handled one after the other. */
  function Run(tokens: map<string, int>, es: seq<Event>, ttl: nat): map<string, int>
    decreases |es|
  {
    if es == [] then tokens else Run(Step(tokens, es[0], ttl), es[1..], ttl)
  }

  /** No event of `es` issues the id `t` again. */
  predicate NoReissue(es: seq<Event>, t: string)
  {
    forall i :: 0 <= i < |es| ==> !(es[i].Issued? && es[i].id == t)
  }

  /** No event of `es` happens later than `now`. */
  predicate NotAfter(es: seq<Event>, now: int)
  {
    forall i :: 0 <= i < |es| ==> es[i].at <= now
  }

  /** The 401 reply for a rejection; an admitted request gets no reply from the gate. */
  function Rejection(v: Verdict): (r: Option<Reply>)
    ensures r.None? <==> v == Admit
    ensures r.Some? ==> r.value.status == 401
  {
    match v
    case NoToken => Some(Reply(401, "No Authentication Token Provided"))
    case Invalid => Some(Reply(401, "Invalid Authentication Token Provided"))
    case Admit => None
  }

  /** The global `auth_tokens` map with its two operations. */
  class TokenStore {
    var tokens: map<string, int>
    const ttl: nat

    constructor (ttl: nat)
      ensures this.ttl == ttl && tokens == map[]
    {
      this.ttl := ttl;
      tokens := map[];
    }

    /** `createAuthToken`: `freshId` and `now` stand for `uuidv4()` and `Date.now()`. */
    method Issue(freshId: string, now: int) returns (r: IssuedToken)
      requires freshId !in tokens
      modifies this
      ensures tokens == Step(old(tokens), Issued(freshId, now), ttl)
      ensures tokens.Keys == old(tokens).Keys + {freshId} && tokens[freshId] == now
      ensures forall k :: k in old(tokens) ==> tokens[k] == old(tokens)[k]
      ensures r == IssuedToken(freshId, now)
    {
      tokens := tokens[freshId := now];
      r := IssuedToken(freshId, now);
    }

    /** `verifyAuthToken`: `now` stands for `Date.now()`. */
    method Verify(header: Option<string>, now: int) returns (v: Verdict)
      modifies this
      ensures v == Judge(old(tokens), header, now, ttl)
      ensures tokens == Step(old(tokens), Verified(header, now), ttl)
      ensures v == NoToken ==> tokens == old(tokens)
      ensures v == Admit ==> tokens == old(tokens)
      ensures v == Invalid ==> tokens == old(tokens) - {header.value}
    {
      if header.None? || header.value == "" {
        return NoToken;
      }
      var token := header.value;
      if token !in tokens || tokens[token] == 0 || IsStale(now, tokens[token], ttl) {
        tokens := tokens - {token};
        return Invalid;
      }
      v := Admit;
    }
  }

  /** A missing or empty header is rejected whatever the store holds, and the store is left alone. */
  lemma MissingHeaderRejected(tokens: map<string, int>, header: Option<string>, now: int, ttl: nat)
    requires header.None? || header == Some("")
    ensures Judge(tokens, header, now, ttl) == NoToken
    ensures Rejection(NoToken) == Some(Reply(401, "No Authentication Token Provided"))
    ensures Step(tokens, Verified(header, now), ttl) == tokens
  {
  }

  /** A header is admitted exactly when its token is stored with a truthy timestamp that is not stale. */
  lemma AdmitIff(tokens: map<string, int>, t: string, now: int, ttl: nat)
    requires t != ""
    ensures Judge(tokens, Some(t), now, ttl) == Admit <==>
              t in tokens && tokens[t] != 0 && now - tokens[t] <= ttl
    ensures Judge(tokens, Some(t), now, ttl) != NoToken
  {
  }

  /**
    A rejected token is evicted, every other entry is kept, and a later
    verification of it (at any time) is rejected too.
   */
  lemma RejectedTokenEvicted(tokens: map<string, int>, t: string, now: int, later: int, ttl: nat)
    requires Judge(tokens, Some(t), now, ttl) == Invalid
    ensures var after := Step(tokens, Verified(Some(t), now), ttl);
      && t !in after
      && after.Keys == tokens.Keys - {t}
      && (forall k :: k in after ==> after[k] == tokens[k])
      && Judge(after, Some(t), later, ttl) == Invalid
  {
  }

  /**
    As long as a token is not issued again, a run of events never adds it
    and never changes its timestamp: entries only disappear.
   */
  lemma {:induction false} NoRenewal(tokens: map<string, int>, es: seq<Event>, t: string, ttl: nat)
    requires NoReissue(es, t)
    ensures t in Run(tokens, es, ttl) ==> t in tokens && Run(tokens, es, ttl)[t] == tokens[t]
    decreases |es|
  {
    if es != [] {
      var next := Step(tokens, es[0], ttl);
      assert !(es[0].Issued? && es[0].id == t);
      assert NoReissue(es[1..], t) by {
        forall i | 0 <= i < |es[1..]| ensures !(es[1..][i].Issued? && es[1..][i].id == t) {
          assert es[1..][i] == es[i + 1];
        }
      }
      NoRenewal(next, es[1..], t, ttl);
    }
  }

  /** Once evicted, a token is never admitted again unless it is issued anew. */
  lemma EvictionIsPermanent(tokens: map<string, int>, t: string, now: int, es: seq<Event>, later: int, ttl: nat)
    requires Judge(tokens, Some(t), now, ttl) == Invalid
    requires NoReissue(es, t)
    ensures Judge(Run(Step(tokens, Verified(Some(t), now), ttl), es, ttl), Some(t), later, ttl) == Invalid
  {
    var after := Step(tokens, Verified(Some(t), now), ttl);
    NoRenewal(after, es, t, ttl);
  }

  /**
    A token that is live at `now` stays stored, with its timestamp unchanged,
    through any run of events that happen no later than `now` and do not
    issue it again.
   */
  lemma {:induction false} StaysLive(tokens: map<string, int>, es: seq<Event>, t: string, now: int, ttl: nat)
    requires Live(tokens, t, now, ttl)
    requires NoReissue(es, t) && NotAfter(es, now)
    ensures t in Run(tokens, es, ttl) && Run(tokens, es, ttl)[t] == tokens[t]
    decreases |es|
  {
    if es != [] {
      var e := es[0];
      assert e.at <= now;
      assert !(e.Issued? && e.id == t);
      if e.Verified? && e.header == Some(t) {
        assert Live(tokens, t, e.at, ttl);
      }
      var next := Step(tokens, e, ttl);
      assert t in next && next[t] == tokens[t];
      assert NoReissue(es[1..], t) && NotAfter(es[1..], now) by {
        forall i | 0 <= i < |es[1..]|
          ensures !(es[1..][i].Issued? && es[1..][i].id == t) && es[1..][i].at <= now
        {
          assert es[1..][i] == es[i + 1];
        }
      }
      StaysLive(next, es[1..], t, now, ttl);
    }
  }

  /**
    A token issued at `at` (a truthy timestamp) is admitted at `now`, after
    any run of requests that happen no later than `now` and do not issue it
    again, exactly when `now - at <= ttl`: expiry is absolute from issue.
   */
  lemma AdmittedIffWithinTtl(tokens: map<string, int>, t: string, at: int, es: seq<Event>, now: int, ttl: nat)
    requires t != "" && at != 0
    requires NoReissue(es, t) && NotAfter(es, now)
    ensures (Judge(Run(Step(tokens, Issued(t, at), ttl), es, ttl), Some(t), now, ttl) == Admit) <==> now - at <= ttl
  {
    var start := Step(tokens, Issued(t, at), ttl);
    NoRenewal(start, es, t, ttl);
    if now - at <= ttl {
      StaysLive(start, es, t, now, ttl);
    }
  }

  /**
    Issue a token at `at`; a check just inside the time-to-live admits it,
    a check just past it rejects and evicts it, and a further check later
    still rejects it.
   */
  lemma ExpiryScenario(tokens: map<string, int>, t: string, at: int, ttl: nat)
    requires t != "" && at != 0
    ensures var s0 := Step(tokens, Issued(t, at), ttl);
      var s1 := Step(s0, Verified(Some(t), at + ttl - 1), ttl);
      var s2 := Step(s1, Verified(Some(t), at + ttl + 1), ttl);
      && Judge(s0, Some(t), at + ttl - 1, ttl) == Admit
      && Judge(s1, Some(t), at + ttl + 1, ttl) == Invalid
      && Judge(s2, Some(t), at + ttl + 2, ttl) == Invalid
  {
  }
}
