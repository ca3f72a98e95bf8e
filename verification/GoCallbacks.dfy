/** The Go binding's callback registry: registering, handling one event, and the speak call's error path. */
module GoCallbacks {
  import opened Wrappers
  import opened CallbackTokens
  import UnloadProtocol

  type Event = UnloadProtocol.Event

  // A user callback, which may be a nil function. The answer None stands for a panic, which the
  // binding turns into "stop".
  datatype Handler = Nil | Fn(answer: Event -> Option<bool>)

  // Whether the binding asks the library for more after this event: always for a token that is
  // gone or a nil function.
  predicate WantsMore(entries: map<Worker, Handler>, token: Worker, event: Event) {
    token in entries && entries[token].Fn? ==> entries[token].answer(event) == Some(true)
  }

  // The three cases of the answer: a token that is gone or has a nil function asks for more, a
  // panicking function does not, and any other answers for itself.
  lemma AnswersOfHandlers(entries: map<Worker, Handler>, token: Worker, event: Event)
    ensures token !in entries || entries[token] == Nil ==> WantsMore(entries, token, event)
    ensures token in entries && entries[token].Fn? ==>
      match entries[token].answer(event)
      case None => !WantsMore(entries, token, event)
      case Some(more) => WantsMore(entries, token, event) == more
  {
  }

  // The registry's tokens after this event: a terminal one, and one after which the user stops,
  // give the token back.
  function AfterEvent(tokens: Tokens, entries: map<Worker, Handler>, token: Worker, event: Event): Tokens {
    if event.Speech? && WantsMore(entries, token, event) then tokens else Release(tokens, token)
  }

  class CallbackRegistry {
    var entries: map<Worker, Handler>
    var sequence: nat
    ghost var unpins: map<Worker, nat>

    ghost predicate Valid()
      reads this
    {
      && entries.Keys <= unpins.Keys
      && forall token | token in unpins :: token <= sequence
    }

    ghost function Contents(): Tokens
      reads this
    {
      Tokens(entries.Keys, unpins)
    }

    constructor ()
      ensures Valid() && Contents() == Tokens({}, map[])
    {
      entries, sequence, unpins := map[], 0, map[];
    }

    method RegisterCallback(fn: Handler) returns (token: Worker)
      requires Valid()
      modifies this
      ensures Valid() && token !in old(unpins)
      ensures Contents() == Register(old(Contents()), token)
      ensures entries == old(entries)[token := fn]
    {
      sequence := sequence + 1;
      token := sequence;
      entries := entries[token := fn];
      unpins := unpins[token := 0];
    }

    method ReleaseCallback(token: Worker)
      requires Valid()
      modifies this
      ensures Valid() && Contents() == Release(old(Contents()), token)
      ensures entries == old(entries) - {token}
    {
      var found := token in entries;
      entries := entries - {token};
      if found {
        unpins := unpins[token := unpins[token] + 1];
      }
    }

    // One event from the library. The token goes back on a terminal event or when the user stops,
    // which is when the library's call makes its last move out of the callback.
    method HandleEvent(token: Worker, event: Event) returns (code: nat)
      requires Valid()
      modifies this
      ensures Valid()
      ensures code == if WantsMore(old(entries), token, event) then 0 else 1
      ensures Contents() == AfterEvent(old(Contents()), old(entries), token, event)
      ensures entries == if event.Speech? && code == 0 then old(entries) else old(entries) - {token}
    {
      var onEvent := Nil;
      if token in entries {
        onEvent := entries[token];
      }
      var wantsMore := true;
      if onEvent.Fn? {
        var answer := onEvent.answer(event);
        wantsMore := match answer case None => false case Some(more) => more;
      }
      var terminal := event.Finished? || event.Failed?;
      if terminal || !wantsMore {
        ReleaseCallback(token);
      }
      code := if wantsMore then 0 else 1;
    }

    // What the speak call does with its token once the library's call has come back.
    method FinishSpeak(token: Worker, failed: bool)
      requires Valid()
      modifies this
      ensures Valid() && Contents() == (if failed then Release(old(Contents()), token) else old(Contents()))
      ensures entries == (if failed then old(entries) - {token} else old(entries))
    {
      if failed {
        ReleaseCallback(token);
      }
    }
  }

  // The registry handles the event of a call as the call's own step says: whatever the user's
  // handlers answer, its tokens become those of the protocol's next state, and the token goes back
  // exactly when the call can no longer call back.
  lemma HandlerReleasesWithTheCall(s: UnloadProtocol.State, w: Worker, entries: map<Worker, Handler>)
    requires w in s.workers && s.workers[w].phase.InCallback?
    requires var m := UnloadProtocol.Returns(WantsMore(entries, w, s.workers[w].phase.event));
      UnloadProtocol.Enabled(s, UnloadProtocol.Run(w, m))
    ensures var event := s.workers[w].phase.event;
      var s' := UnloadProtocol.Apply(s, UnloadProtocol.Run(w, UnloadProtocol.Returns(WantsMore(entries, w, event))));
      && AfterEvent(s.tokens, entries, w, event) == s'.tokens
      && w in s'.workers
      && (if UnloadProtocol.CanCallBack(s'.workers[w]) then s'.tokens == s.tokens
          else s'.tokens == Release(s.tokens, w))
  {
  }
}
