// The key agent: one resident identity and a cache of data keys per context, changed only by the
// requests below. Every random draw (a nonce, a new key) is the `coin` passed with the request.
module Agent {
  import opened Wrappers
  import opened Crypto
  import opened KeyOrder
  import opened Objects

  /** A private key sealed under a passphrase. */
  datatype WrappedPrivateKey = WrappedPrivateKey(person: PersonId, passphrase: string) | Unreadable

  datatype Request =
    | Ping
    | Login(wrapped: WrappedPrivateKey, passphrase: string)
    | PublicIdentity
    | Sign(message: CommitFields)
    | UnwrapDekFor(context: string, sealedBox: SealedDek)
    | Encrypt(context: string, plain: string)
    | Decrypt(context: string, value: EncryptedValue)
    | GenerateDek(context: string)
    | WrapDekForRecipient(context: string, recipient: PersonId)
    | Lock
    | Status

  datatype AgentError = Locked | NoDek(context: string) | UnlockFailed | UnwrapFailed | DecryptionFailed

  datatype Response =
    | Pong
    | Done
    | Public(person: PersonId)
    | SignatureOf(signature: Signature)
    | Encrypted(encrypted: EncryptedValue)
    | Plaintext(plain: string)
    | SealedFor(sealedBox: SealedDek)
    | StatusIs(unlocked: bool, cachedContexts: seq<string>)
    | Refused(why: AgentError)

  datatype AgentState = AgentState(identity: Option<PersonId>, deks: map<string, KeyId>)

  /** The agent's answer to one request and the state it leaves. */
  function Handle(s: AgentState, request: Request, coin: nat): (AgentState, Response) {
    match request
    case Ping => (s, Pong)
    case Login(wrapped, passphrase) =>
      if wrapped.WrappedPrivateKey? && wrapped.passphrase == passphrase
      then (s.(identity := Some(wrapped.person)), Done)
      else (s, Refused(UnlockFailed))
    case PublicIdentity => (s, if s.identity.Some? then Public(s.identity.value) else Refused(Locked))
    case Sign(message) =>
      (s, if s.identity.Some? then SignatureOf(Signed(s.identity.value, message)) else Refused(Locked))
    case UnwrapDekFor(context, sealedBox) =>
      if s.identity.None? then (s, Refused(Locked))
      else if UnwrapDek(sealedBox, s.identity.value).None? then (s, Refused(UnwrapFailed))
      else (s.(deks := s.deks[context := UnwrapDek(sealedBox, s.identity.value).value]), Done)
    case Encrypt(context, plain) =>
      (s, if context in s.deks then Encrypted(EncryptValue(s.deks[context], coin, plain)) else Refused(NoDek(context)))
    case Decrypt(context, value) =>
      (s, if context !in s.deks then Refused(NoDek(context))
          else if DecryptValue(s.deks[context], value).None? then Refused(DecryptionFailed)
          else Plaintext(DecryptValue(s.deks[context], value).value))
    case GenerateDek(context) =>
      if s.identity.None? then (s, Refused(Locked)) else (s.(deks := s.deks[context := coin]), Done)
    case WrapDekForRecipient(context, recipient) =>
      (s, if s.identity.None? then Refused(Locked)
          else if context !in s.deks then Refused(NoDek(context))
          else SealedFor(WrapDek(s.deks[context], recipient)))
    case Lock => (AgentState(None, map[]), Done)
    case Status => (s, StatusIs(s.identity.Some?, SortedKeys(s.deks.Keys)))
  }

  class Agent {
    var identity: Option<PersonId>
    var deks: map<string, KeyId>

    constructor ()
      ensures State() == AgentState(None, map[])
    {
      identity, deks := None, map[];
    }

    function State(): AgentState
      reads this
    {
      AgentState(identity, deks)
    }

    method HandleRequest(request: Request, coin: nat) returns (response: Response)
      modifies this
      ensures (State(), response) == Handle(old(State()), request, coin)
    {
      match request {
        case Ping => return Pong;
        case Login(wrapped, passphrase) =>
          if wrapped.WrappedPrivateKey? && wrapped.passphrase == passphrase {
            identity := Some(wrapped.person);
            return Done;
          }
          return Refused(UnlockFailed);
        case PublicIdentity =>
          return if identity.Some? then Public(identity.value) else Refused(Locked);
        case Sign(message) =>
          return if identity.Some? then SignatureOf(Signed(identity.value, message)) else Refused(Locked);
        case UnwrapDekFor(context, sealedBox) =>
          if identity.None? {
            return Refused(Locked);
          }
          var dek := UnwrapDek(sealedBox, identity.value);
          if dek.None? {
            return Refused(UnwrapFailed);
          }
          deks := deks[context := dek.value];
          return Done;
        case Encrypt(context, plain) =>
          if context !in deks {
            return Refused(NoDek(context));
          }
          return Encrypted(EncryptValue(deks[context], coin, plain));
        case Decrypt(context, value) =>
          if context !in deks {
            return Refused(NoDek(context));
          }
          var plain := DecryptValue(deks[context], value);
          return if plain.None? then Refused(DecryptionFailed) else Plaintext(plain.value);
        case GenerateDek(context) =>
          if identity.None? {
            return Refused(Locked);
          }
          deks := deks[context := coin];
          return Done;
        case WrapDekForRecipient(context, recipient) =>
          if identity.None? {
            return Refused(Locked);
          }
          if context !in deks {
            return Refused(NoDek(context));
          }
          return SealedFor(WrapDek(deks[context], recipient));
        case Lock =>
          identity, deks := None, map[];
          return Done;
        case Status =>
          return StatusIs(identity.Some?, SortedKeys(deks.Keys));
      }
    }
  }

  // ---- Every sequence of requests, from any number of connections in any order -----------------

  datatype Call = Call(request: Request, coin: nat)

  function After(s: AgentState, calls: seq<Call>): AgentState
    decreases |calls|
  {
    if calls == [] then s else After(Handle(s, calls[0].request, calls[0].coin).0, calls[1..])
  }

  ghost predicate KeysNeedIdentity(s: AgentState) {
    s.identity.None? ==> s.deks == map[]
  }

  /** Cached keys exist only while an identity is resident. */
  lemma {:induction false} KeysOnlyWithIdentity(s: AgentState, calls: seq<Call>)
    requires KeysNeedIdentity(s)
    ensures KeysNeedIdentity(After(s, calls))
    decreases |calls|
  {
    if calls != [] {
      KeysOnlyWithIdentity(Handle(s, calls[0].request, calls[0].coin).0, calls[1..]);
    }
  }

  /** A request that binds `context` to another key, or drops all keys. */
  predicate Rebinds(request: Request, context: string) {
    || request.Lock?
    || (request.GenerateDek? && request.context == context)
    || (request.UnwrapDekFor? && request.context == context)
  }

  lemma RequestKeepsBinding(s: AgentState, call: Call, context: string)
    requires context in s.deks && !Rebinds(call.request, context)
    ensures var next := Handle(s, call.request, call.coin).0;
            context in next.deks && next.deks[context] == s.deks[context]
  {}

  lemma {:induction false} BindingSurvives(s: AgentState, calls: seq<Call>, context: string)
    requires context in s.deks
    requires forall c | c in calls :: !Rebinds(c.request, context)
    ensures context in After(s, calls).deks && After(s, calls).deks[context] == s.deks[context]
    decreases |calls|
  {
    if calls != [] {
      assert calls[0] in calls && forall c | c in calls[1..] :: c in calls;
      RequestKeepsBinding(s, calls[0], context);
      BindingSurvives(Handle(s, calls[0].request, calls[0].coin).0, calls[1..], context);
    }
  }

  /** What was encrypted under a context decrypts to the original afterwards exactly when the context
      is still bound to the same key, whatever was asked in between. */
  lemma DecryptsIffSameKey(s: AgentState, context: string, plain: string, nonce: nat, calls: seq<Call>, coin: nat)
    requires context in s.deks
    ensures var (s1, e) := Handle(s, Encrypt(context, plain), nonce);
            var later := After(s1, calls);
            && e.Encrypted?
            && (Handle(later, Decrypt(context, e.encrypted), coin).1 == Plaintext(plain) <==>
                context in later.deks && later.deks[context] == s.deks[context])
  {}

  /** ... which holds across any requests that neither rebind the context nor lock the agent. */
  lemma EncryptThenDecrypt(s: AgentState, context: string, plain: string, nonce: nat, calls: seq<Call>, coin: nat)
    requires context in s.deks
    requires forall c | c in calls :: !Rebinds(c.request, context)
    ensures var (s1, e) := Handle(s, Encrypt(context, plain), nonce);
            e.Encrypted? && Handle(After(s1, calls), Decrypt(context, e.encrypted), coin).1 == Plaintext(plain)
  {
    BindingSurvives(Handle(s, Encrypt(context, plain), nonce).0, calls, context);
  }

  /** From a lock until the next login no request yields a plaintext, a signature or a sealed key. */
  lemma {:induction false} LockedUntilLogin(s: AgentState, calls: seq<Call>, last: Call)
    requires s == AgentState(None, map[])
    requires forall c | c in calls :: !c.request.Login?
    requires !last.request.Login?
    ensures After(s, calls) == s
    ensures var r := Handle(After(s, calls), last.request, last.coin).1;
            !r.Plaintext? && !r.Encrypted? && !r.SignatureOf? && !r.SealedFor? && !r.Public?
    decreases |calls|
  {
    if calls != [] {
      assert calls[0] in calls;
      LockedUntilLogin(s, calls[1..], last);
    }
  }

  /** What is said about the agent is so: who is resident, and which contexts are cached, in order. */
  lemma AnswersAreTrue(s: AgentState, coin: nat)
    ensures var r := Handle(s, PublicIdentity, coin).1;
            if s.identity.Some? then r == Public(s.identity.value) else r == Refused(Locked)
    ensures var r := Handle(s, Status, coin).1;
            && r.StatusIs? && (r.unlocked <==> s.identity.Some?)
            && Increasing(r.cachedContexts) && forall c :: c in r.cachedContexts <==> c in s.deks
    ensures Handle(s, PublicIdentity, coin).0 == s && Handle(s, Status, coin).0 == s
  {}

  // ---- Whose keys are cached --------------------------------------------------------------------

  /** The agent together with the identity under which each cached context was bound. */
  datatype Owned = Owned(state: AgentState, owners: map<string, PersonId>)

  /** The context a request has just bound, if it did. */
  function Binds(s: AgentState, call: Call): Option<string> {
    var bound := Handle(s, call.request, call.coin).1 == Done;
    match call.request
    case GenerateDek(context) => if bound then Some(context) else None
    case UnwrapDekFor(context, _) => if bound then Some(context) else None
    case _ => None
  }

  /** Who has just logged in, if anybody did. */
  function LogsIn(s: AgentState, call: Call): Option<PersonId> {
    if call.request.Login? && Handle(s, call.request, call.coin).1 == Done then Some(call.request.wrapped.person)
      else None
  }

  function OwnedStep(o: Owned, call: Call): Owned {
    var next, bound := Handle(o.state, call.request, call.coin).0, Binds(o.state, call);
    if call.request.Lock? then Owned(next, map[])
    else if bound.Some? && o.state.identity.Some? then Owned(next, o.owners[bound.value := o.state.identity.value])
    else Owned(next, o.owners)
  }

  function OwnedAfter(o: Owned, calls: seq<Call>): Owned
    decreases |calls|
  {
    if calls == [] then o else OwnedAfter(OwnedStep(o, calls[0]), calls[1..])
  }

  lemma {:induction false} OwnedAfterIsAfter(o: Owned, calls: seq<Call>)
    ensures OwnedAfter(o, calls).state == After(o.state, calls)
    decreases |calls|
  {
    if calls != [] {
      OwnedAfterIsAfter(OwnedStep(o, calls[0]), calls[1..]);
    }
  }

  /** Every cached key was bound by the identity that is resident. */
  ghost predicate AllMine(o: Owned) {
    forall c | c in o.state.deks :: c in o.owners && o.state.identity == Some(o.owners[c])
  }

  /** A login that succeeds for somebody else while keys are cached. */
  predicate ForeignLogin(s: AgentState, call: Call) {
    LogsIn(s, call).Some? && s.deks != map[] && s.identity != LogsIn(s, call)
  }

  lemma OneStepBelongsIff(o: Owned, call: Call)
    requires AllMine(o)
    ensures AllMine(OwnedStep(o, call)) <==> !ForeignLogin(o.state, call)
  {
    if ForeignLogin(o.state, call) {
      var c :| c in o.state.deks;
      assert c in OwnedStep(o, call).state.deks;
    }
  }

  ghost predicate AlwaysMine(o: Owned, calls: seq<Call>)
    decreases |calls|
  {
    AllMine(o) && (calls != [] ==> AlwaysMine(OwnedStep(o, calls[0]), calls[1..]))
  }

  ghost predicate NoForeignLogin(s: AgentState, calls: seq<Call>)
    decreases |calls|
  {
    calls != [] ==>
      && !ForeignLogin(s, calls[0])
      && NoForeignLogin(Handle(s, calls[0].request, calls[0].coin).0, calls[1..])
  }

  /** Over every run: the cached keys belong to the resident identity at every moment if and only if no
      login succeeds for somebody else while keys are cached. */
  lemma {:induction false} KeysBelongIff(o: Owned, calls: seq<Call>)
    requires AllMine(o)
    ensures AlwaysMine(o, calls) <==> NoForeignLogin(o.state, calls)
    decreases |calls|
  {
    if calls != [] {
      OneStepBelongsIff(o, calls[0]);
      if AllMine(OwnedStep(o, calls[0])) {
        KeysBelongIff(OwnedStep(o, calls[0]), calls[1..]);
      }
    }
  }

  function NextLogin(s: AgentState, call: Call, c: string, last: Option<PersonId>): Option<PersonId> {
    if call.request.Lock? || Binds(s, call) == Some(c) then None
    else if LogsIn(s, call).Some? then LogsIn(s, call)
    else last
  }

  /** The last login since context `c` was bound or everything was dropped, given the last one before. */
  function LastLogin(s: AgentState, calls: seq<Call>, c: string, last: Option<PersonId>): Option<PersonId>
    decreases |calls|
  {
    if calls == [] then last
    else LastLogin(Handle(s, calls[0].request, calls[0].coin).0, calls[1..], c, NextLogin(s, calls[0], c, last))
  }

  /** Whose key `c` is and who is resident, told apart by the last login since. */
  ghost predicate Tracked(o: Owned, c: string, last: Option<PersonId>) {
    c in o.state.deks ==> c in o.owners && o.state.identity == if last.Some? then last else Some(o.owners[c])
  }

  lemma {:induction false} LoginsAreTracked(o: Owned, calls: seq<Call>, c: string, last: Option<PersonId>)
    requires Tracked(o, c, last)
    ensures Tracked(OwnedAfter(o, calls), c, LastLogin(o.state, calls, c, last))
    decreases |calls|
  {
    if calls != [] {
      OneLoginTracked(o, calls[0], c, last);
      LoginsAreTracked(OwnedStep(o, calls[0]), calls[1..], c, NextLogin(o.state, calls[0], c, last));
    }
  }

  lemma OneLoginTracked(o: Owned, call: Call, c: string, last: Option<PersonId>)
    requires Tracked(o, c, last)
    ensures Tracked(OwnedStep(o, call), c, NextLogin(o.state, call, c, last))
  {}

  /** At the end of a run a cached key belongs to the resident identity if and only if nobody has logged
      in since it was bound, or the last to do so was its owner again. */
  lemma KeyBelongsAtEndIff(o: Owned, calls: seq<Call>, c: string)
    requires AllMine(o) && c in After(o.state, calls).deks
    ensures var end, last := OwnedAfter(o, calls), LastLogin(o.state, calls, c, None);
            && end.state == After(o.state, calls) && c in end.owners
            && (end.state.identity == Some(end.owners[c]) <==> last.None? || last == Some(end.owners[c]))
  {
    OwnedAfterIsAfter(o, calls);
    LoginsAreTracked(o, calls, c, None);
  }

  /** A run in which the keys do not belong to the resident identity: one person binds a context, another
      logs in, and what the first encrypted is decrypted for the second. */
  lemma KeysOutliveTheirOwner(a: PersonId, b: PersonId, context: string, coin: nat, plain: string, nonce: nat)
    requires a != b
    ensures var calls := [Call(Login(WrappedPrivateKey(a, ""), ""), 0), Call(GenerateDek(context), coin),
                          Call(Login(WrappedPrivateKey(b, ""), ""), 0)];
            var end := OwnedAfter(Owned(AgentState(None, map[]), map[]), calls);
            && end.state.identity == Some(b) && context in end.owners && end.owners[context] == a
            && Handle(end.state, Decrypt(context, EncryptValue(coin, nonce, plain)), 0).1 == Plaintext(plain)
  {
    var first, second := Call(Login(WrappedPrivateKey(a, ""), ""), 0), Call(Login(WrappedPrivateKey(b, ""), ""), 0);
    var bind := Call(GenerateDek(context), coin);
    var start := Owned(AgentState(None, map[]), map[]);
    assert [first, bind, second][1..] == [bind, second] && [bind, second][1..] == [second] && [second][1..] == [];
    assert OwnedAfter(start, [first, bind, second]) == OwnedStep(OwnedStep(OwnedStep(start, first), bind), second) by {
      assert OwnedAfter(OwnedStep(OwnedStep(start, first), bind), [second]) ==
        OwnedStep(OwnedStep(OwnedStep(start, first), bind), second);
    }
  }
}
