/** `ReloadMachine` is `reloadWithKeyStore` without repair, written out with explicit closes. */
module Refinement {
  import opened Errors
  import opened Certificates
  import opened States
  import opened TrustStore
  import opened Provision

  ghost predicate SetupWorksFrom(env: Env, from: nat) {
    forall t :: t >= from ==> !env.setupFails(t)
  }

  lemma OpenIsLoad(env: Env, s: State, f: File, name: KeyName)
    requires name in s.keys
    ensures OpenPair(env, s, f, name) == LoadPair(env, s, f, name)
    ensures LoadPair(env, s, f, name).s.keys == s.keys && s.tick <= LoadPair(env, s, f, name).s.tick
  {
  }

  lemma OpenedIsPaired(env: Env, s: State, ca: Pair, server: Pair)
    requires SetupWorksFrom(env, s.tick)
    ensures var a, b := ReloadOpened(env, s, ca, server), ReloadWithPairs(env, s, ca, server, false);
            b == if a.Err? then Err(a.s, a.error) else Ok(a.s, MaterialFrom(env, ca.cert, a.value, server.signer))
  {
  }

  /** With both persisted keys there, under the same clock, draws, failures and crash point, the two give the
      same Material or the same error, and leave the same disk, keys, Root and handles. */
  lemma ReloadRefinesKeyStoreReload(env: Env, s: State)
    requires CaKey in s.keys && ServerKey in s.keys
    requires SetupWorksFrom(env, s.tick)
    ensures ReloadMachine(env, s) == ReloadWithKeyStore(env, s, false)
  {
    hide OpenPair, LoadPair, ReloadOpened, ReloadWithPairs, Release;
    OpenIsLoad(env, s, CaCert, CaKey);
    var ca := LoadPair(env, s, CaCert, CaKey);
    if s.dead {
      DeadLoad(env, s);
    } else if ca.Ok? {
      OpenIsLoad(env, ca.s, ServerCert, ServerKey);
      var server := LoadPair(env, ca.s, ServerCert, ServerKey);
      if server.Ok? {
        OpenedIsPaired(env, server.s, ca.value, server.value);
        ReleasesCommute(ReloadOpened(env, server.s, ca.value, server.value).s.handles,
                        ca.value.signer.h, server.value.signer.h);
      }
    }
  }

  lemma DeadLoad(env: Env, s: State)
    requires s.dead
    ensures LoadPair(env, s, CaCert, CaKey) == Err(s, Terminated)
  {
  }
}
