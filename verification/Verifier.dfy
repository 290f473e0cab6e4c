/** The verifier's guarded fields, as its two critical sections change them. Each
    section is one step of the protocol in `Verifying`. */
module Verifier {
  import opened Verifying

  class TargetVerifier {
    const cfg: Config
    var verified: bool
    var verifiedUntil: int
    var verifiedFor: nat
    var inFlight: Option<nat>
    var failed: bool
    var retryAfter: int
    var failedFor: nat
    ghost var system: System

    ghost predicate Valid()
      reads this
    {
      && Inv(cfg, system)
      && system.cache == Cache(verified, verifiedUntil, verifiedFor, inFlight, failed, retryAfter, failedFor)
    }

    constructor (cfg: Config, ghost now: int)
      ensures Valid() && this.cfg == cfg && system == Initial(now)
    {
      this.cfg := cfg;
      verified, verifiedUntil, verifiedFor := false, 0, 0;
      inFlight := None;
      failed, retryAfter, failedFor := false, 0, 0;
      system := Initial(now);
    }

    /** A caller's step outside the mutex changes no guarded field. */
    ghost method Proceed(a: Action)
      requires Valid() && Enabled(system, a) && !a.Consult? && !a.Settle?
      modifies this`system
      ensures Valid() && system == Next(cfg, old(system), a)
    {
      StepKeepsInv(cfg, system, a);
      system := Next(cfg, system, a);
    }

    /** The first critical section, up to any of its unlocks. `channel` is the one
        that `make` would return. */
    method Consult(ghost id: nat, f: nat, first: int, second: int, channel: nat) returns (decision: Decision)
      requires Valid() && Enabled(system, Action.Consult(id, first, second))
      requires f == system.callers[id].f && channel == system.channels
      modifies this
      ensures Valid() && system == Next(cfg, old(system), Action.Consult(id, first, second))
      ensures decision.Pass? ==> system.callers[id] == Returned(Passed(f, first))
      ensures decision.Refuse? ==> system.callers[id] == Returned(Refused(f, second))
      ensures decision.Wait? ==> system.callers[id] == Waiting(decision.channel)
      ensures decision.Begin? ==> system.callers[id] == Calling(f, channel, second)
      ensures decision.Begin? <==> Owners(system) != Owners(old(system))
    {
      ghost var before := system;
      StepKeepsInv(cfg, system, Action.Consult(id, first, second));
      system := Next(cfg, system, Action.Consult(id, first, second));
      OwnersChange(before, system, id);
      if verified && verifiedFor == f && (cfg.successTTL <= 0 || first < verifiedUntil) {
        return Pass;
      }
      verified := false;
      if inFlight.Some? {
        return Wait(inFlight.value);
      }
      if failed && failedFor == f && second < retryAfter {
        return Refuse;
      }
      inFlight := Some(channel);
      return Begin;
    }

    /** `verify`'s verdict on what the identity call and the second credential read
        returned, then the second critical section. */
    method Settle(ghost id: nat, f: nat, account: Option<string>, reread: Option<nat>, time: int) returns (ok: bool)
      requires Valid() && Enabled(system, Action.Settle(id, time))
      requires var p := system.callers[id]; p.f == f && p.account == account && p.reread == reread
      modifies this
      ensures Valid() && system == Next(cfg, old(system), Action.Settle(id, time))
      ensures ok <==> account == Some(cfg.accountID) && reread == Some(f)
      ensures system.callers[id] == Returned(if ok then Passed(f, time) else Refused(f, time))
      ensures Owners(system) == {}
    {
      StepKeepsInv(cfg, system, Action.Settle(id, time));
      system := Next(cfg, system, Action.Settle(id, time));
      assert forall k :: k !in Owners(system);
      ok := account == Some(cfg.accountID) && reread == Some(f);
      if ok {
        verified := true;
        verifiedUntil := time + cfg.successTTL;
        verifiedFor := f;
        failed := false;
      } else {
        failed := true;
        retryAfter := time + cfg.failureTTL;
        failedFor := f;
      }
      inFlight := None;
    }
  }
}
