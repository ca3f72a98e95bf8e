/** The Go binding's callback registry as a value: which tokens are live and how often each was unpinned. */
module CallbackTokens {

  type Worker = nat

  datatype Tokens = Tokens(live: set<Worker>, unpins: map<Worker, nat>)

  function Register(r: Tokens, w: Worker): Tokens {
    Tokens(r.live + {w}, r.unpins[w := 0])
  }

  // Deleting from the map and unpinning happen only for the caller that still finds the entry.
  function Release(r: Tokens, w: Worker): Tokens {
    if w in r.live && w in r.unpins
    then Tokens(r.live - {w}, r.unpins[w := r.unpins[w] + 1])
    else r
  }
}
