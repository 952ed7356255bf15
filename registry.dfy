/**
 * The identity registry (the VotingAuth contract): user profiles keyed by address,
 * a moderator set, a single admin and a global pause flag. The behaviour is the one the
 * contract's Hardhat tests read back after every call; each entry point either succeeds
 * or reverts with a named error that carries the contract's revert string.
 */
module Registry {
  import opened Common

  /** What `getUserProfile` returns for an address. */
  datatype Profile = Profile(isRegistered: bool, isBanned: bool, votingWeight: nat, banReason: string)

  /** The profile of an address nobody has touched: storage defaults. */
  const Blank := Profile(false, false, 0, "")

  const MinWeight: nat := 1
  const MaxWeight: nat := 100
  const DefaultWeight: nat := 1

  predicate ValidWeight(w: int) { MinWeight <= w <= MaxWeight }

  /** A registered profile has a weight in [1,100]; an unregistered one keeps the default 0. */
  predicate WellFormed(p: Profile)
  {
    if p.isRegistered then ValidWeight(p.votingWeight) else p.votingWeight == 0
  }

  datatype AuthError = AlreadyRegistered | NotRegistered | InvalidWeight | NotAdmin | NotModerator

  /** The revert string of each error. */
  function Reason(e: AuthError): string
  {
    match e
    case AlreadyRegistered => "User already registered"
    case NotRegistered => "User not registered"
    case InvalidWeight => "Invalid voting weight"
    case NotAdmin => "Only admin can perform this action"
    case NotModerator => "Only moderator can perform this action"
  }

  /** A transaction either commits or reverts with an error. */
  datatype Outcome = Done | Reverted(error: AuthError)

  class VotingAuth {
    var profiles: map<Address, Profile>
    var moderators: set<Address>
    var admin: Address
    var paused: bool

    ghost predicate Valid()
      reads this
    {
      forall a :: a in profiles ==> WellFormed(profiles[a])
    }

    /** Deploying makes the deployer the admin and a moderator. */
    constructor (deployer: Address)
      ensures Valid()
      ensures profiles == map[] && moderators == {deployer} && admin == deployer && !paused
    {
      profiles := map[];
      moderators := {deployer};
      admin := deployer;
      paused := false;
    }

    /** `getUserProfile(a)`. */
    function ProfileOf(a: Address): (p: Profile)
      reads this
      requires Valid()
      ensures WellFormed(p)
      ensures a !in profiles ==> p == Blank
    {
      if a in profiles then profiles[a] else Blank
    }

    /** `getVotingWeight(a)`: 0 for an unregistered address, otherwise in [1,100]. */
    function GetVotingWeight(a: Address): (w: nat)
      reads this
      requires Valid()
      ensures ProfileOf(a).isRegistered <==> ValidWeight(w)
      ensures !ProfileOf(a).isRegistered <==> w == 0
    {
      ProfileOf(a).votingWeight
    }

    /** `canUserVote(a)`: registered and not banned. */
    predicate CanUserVote(a: Address)
      reads this
      requires Valid()
    {
      ProfileOf(a).isRegistered && !ProfileOf(a).isBanned
    }

    /** `isModerator(a)`. */
    predicate IsModerator(a: Address)
      reads this
    {
      a in moderators
    }

    /** `registerUser()`: self-service registration with weight 1. */
    method RegisterUser(caller: Address) returns (r: Outcome)
      requires Valid()
      modifies this`profiles
      ensures Valid()
      ensures r == if old(ProfileOf(caller)).isRegistered then Reverted(AlreadyRegistered) else Done
      ensures r.Done? ==> profiles == old(profiles)[caller := Profile(true, false, DefaultWeight, "")]
      ensures r.Reverted? ==> profiles == old(profiles)
    {
      if ProfileOf(caller).isRegistered {
        return Reverted(AlreadyRegistered);
      }
      profiles := profiles[caller := Profile(true, false, DefaultWeight, "")];
      r := Done;
    }

    /** `registerUserWithWeight(target, weight)`: the admin registers `target` with a chosen weight. */
    method RegisterUserWithWeight(caller: Address, target: Address, weight: nat) returns (r: Outcome)
      requires Valid()
      modifies this`profiles
      ensures Valid()
      ensures r == if caller != admin then Reverted(NotAdmin)
                   else if !ValidWeight(weight) then Reverted(InvalidWeight)
                   else Done
      ensures r.Done? ==> profiles == old(profiles)[target := Profile(true, false, weight, "")]
      ensures r.Reverted? ==> profiles == old(profiles)
    {
      if caller != admin {
        return Reverted(NotAdmin);
      }
      if !ValidWeight(weight) {
        return Reverted(InvalidWeight);
      }
      profiles := profiles[target := Profile(true, false, weight, "")];
      r := Done;
    }

    /** `updateVotingWeight(target, weight)`: a moderator changes a registered user's weight. */
    method UpdateVotingWeight(caller: Address, target: Address, weight: nat) returns (r: Outcome)
      requires Valid()
      modifies this`profiles
      ensures Valid()
      ensures r == if !IsModerator(caller) then Reverted(NotModerator)
                   else if !old(ProfileOf(target)).isRegistered then Reverted(NotRegistered)
                   else if !ValidWeight(weight) then Reverted(InvalidWeight)
                   else Done
      ensures r.Done? ==> profiles == old(profiles)[target := old(ProfileOf(target)).(votingWeight := weight)]
      ensures r.Done? ==> GetVotingWeight(target) == weight
      ensures r.Reverted? ==> profiles == old(profiles)
    {
      if !IsModerator(caller) {
        return Reverted(NotModerator);
      }
      var p := ProfileOf(target);
      if !p.isRegistered {
        return Reverted(NotRegistered);
      }
      if !ValidWeight(weight) {
        return Reverted(InvalidWeight);
      }
      profiles := profiles[target := p.(votingWeight := weight)];
      r := Done;
    }

    /** `banUser(target, reason)`: a moderator bans `target`, recording the reason. */
    method BanUser(caller: Address, target: Address, reason: string) returns (r: Outcome)
      requires Valid()
      modifies this`profiles
      ensures Valid()
      ensures r == if !IsModerator(caller) then Reverted(NotModerator) else Done
      ensures r.Done? ==> profiles == old(profiles)[target := old(ProfileOf(target)).(isBanned := true, banReason := reason)]
      ensures r.Done? ==> !CanUserVote(target)
      ensures r.Reverted? ==> profiles == old(profiles)
    {
      if !IsModerator(caller) {
        return Reverted(NotModerator);
      }
      profiles := profiles[target := ProfileOf(target).(isBanned := true, banReason := reason)];
      r := Done;
    }

    /** `unbanUser(target)`: a moderator lifts a ban, resetting the reason to "". */
    method UnbanUser(caller: Address, target: Address) returns (r: Outcome)
      requires Valid()
      modifies this`profiles
      ensures Valid()
      ensures r == if !IsModerator(caller) then Reverted(NotModerator) else Done
      ensures r.Done? ==> profiles == old(profiles)[target := old(ProfileOf(target)).(isBanned := false, banReason := "")]
      ensures r.Done? ==> CanUserVote(target) == old(ProfileOf(target)).isRegistered
      ensures r.Reverted? ==> profiles == old(profiles)
    {
      if !IsModerator(caller) {
        return Reverted(NotModerator);
      }
      profiles := profiles[target := ProfileOf(target).(isBanned := false, banReason := "")];
      r := Done;
    }

    /** `addModerator(target)`: admin only; adding a present moderator changes nothing. */
    method AddModerator(caller: Address, target: Address) returns (r: Outcome)
      modifies this`moderators
      ensures r == if caller != admin then Reverted(NotAdmin) else Done
      ensures moderators == if r.Done? then old(moderators) + {target} else old(moderators)
    {
      if caller != admin {
        return Reverted(NotAdmin);
      }
      moderators := moderators + {target};
      r := Done;
    }

    /** `removeModerator(target)`: admin only. */
    method RemoveModerator(caller: Address, target: Address) returns (r: Outcome)
      modifies this`moderators
      ensures r == if caller != admin then Reverted(NotAdmin) else Done
      ensures moderators == if r.Done? then old(moderators) - {target} else old(moderators)
    {
      if caller != admin {
        return Reverted(NotAdmin);
      }
      moderators := moderators - {target};
      r := Done;
    }

    /** `transferAdmin(target)`: admin only; the new admin is also a moderator. */
    method TransferAdmin(caller: Address, target: Address) returns (r: Outcome)
      modifies this`admin, this`moderators
      ensures r == if old(admin) != caller then Reverted(NotAdmin) else Done
      ensures r.Done? ==> admin == target && moderators == old(moderators) + {target}
      ensures r.Reverted? ==> admin == old(admin) && moderators == old(moderators)
    {
      if caller != admin {
        return Reverted(NotAdmin);
      }
      admin := target;
      moderators := moderators + {target};
      r := Done;
    }

    /** `pause()`: admin only. */
    method Pause(caller: Address) returns (r: Outcome)
      modifies this`paused
      ensures r == if caller != admin then Reverted(NotAdmin) else Done
      ensures paused == (r.Done? || old(paused))
    {
      if caller != admin {
        return Reverted(NotAdmin);
      }
      paused := true;
      r := Done;
    }

    /** `unpause()`: admin only. */
    method Unpause(caller: Address) returns (r: Outcome)
      modifies this`paused
      ensures r == if caller != admin then Reverted(NotAdmin) else Done
      ensures paused == (r.Reverted? && old(paused))
    {
      if caller != admin {
        return Reverted(NotAdmin);
      }
      paused := false;
      r := Done;
    }
  }

  // ---------------------------------------------------------------------------
  // The test cases, replayed against a freshly deployed registry. `deployer` is the
  // default signer; the other signers are distinct accounts.
  // ---------------------------------------------------------------------------

  /** Registering a fresh address gives a registered, unbanned profile of weight 1. */
  method RegisterFreshScenario(deployer: Address, alice: Address) returns (r: Outcome, p: Profile)
    ensures r == Done && p == Profile(true, false, 1, "")
  {
    var auth := new VotingAuth(deployer);
    r := auth.RegisterUser(alice);
    p := auth.ProfileOf(alice);
  }

  /** A second registration reverts with "User already registered" and changes nothing. */
  method DoubleRegistrationScenario(deployer: Address, alice: Address) returns (second: Outcome, p: Profile)
    ensures second == Reverted(AlreadyRegistered) && Reason(second.error) == "User already registered"
    ensures p == Profile(true, false, 1, "")
  {
    var auth := new VotingAuth(deployer);
    var first := auth.RegisterUser(alice);
    second := auth.RegisterUser(alice);
    p := auth.ProfileOf(alice);
  }

  /** The admin registers with any weight in [1,100]; 0 and 101 are rejected. */
  method WeightedRegistrationScenario(deployer: Address, alice: Address, weight: nat)
    returns (zero: Outcome, over: Outcome, r: Outcome, p: Profile)
    ensures zero == Reverted(InvalidWeight) && over == Reverted(InvalidWeight)
    ensures Reason(zero.error) == "Invalid voting weight"
    ensures r == (if 1 <= weight <= 100 then Done else Reverted(InvalidWeight))
    ensures r == Done ==> p == Profile(true, false, weight, "")
    ensures r != Done ==> p == Blank
  {
    var auth := new VotingAuth(deployer);
    zero := auth.RegisterUserWithWeight(deployer, alice, 0);
    over := auth.RegisterUserWithWeight(deployer, alice, 101);
    r := auth.RegisterUserWithWeight(deployer, alice, weight);
    p := auth.ProfileOf(alice);
  }

  /** Weight updates by the deployer: read back, unregistered target, out-of-range weights. */
  method WeightUpdateScenario(deployer: Address, alice: Address, bob: Address)
    returns (ok: Outcome, w: nat, unregistered: Outcome, zero: Outcome, over: Outcome)
    requires alice != bob
    ensures ok == Done && w == 10
    ensures unregistered == Reverted(NotRegistered) && Reason(unregistered.error) == "User not registered"
    ensures zero == Reverted(InvalidWeight) && over == Reverted(InvalidWeight)
  {
    var auth := new VotingAuth(deployer);
    var reg := auth.RegisterUser(alice);
    ok := auth.UpdateVotingWeight(deployer, alice, 10);
    w := auth.GetVotingWeight(alice);
    unregistered := auth.UpdateVotingWeight(deployer, bob, 5);
    zero := auth.UpdateVotingWeight(deployer, alice, 0);
    over := auth.UpdateVotingWeight(deployer, alice, 101);
  }

  /** A non-moderator is turned away before the target's registration is looked at. */
  method NonModeratorScenario(deployer: Address, alice: Address, bob: Address) returns (r: Outcome)
    requires alice != deployer
    ensures r == Reverted(NotModerator) && Reason(r.error) == "Only moderator can perform this action"
  {
    var auth := new VotingAuth(deployer);
    r := auth.UpdateVotingWeight(alice, bob, 5);
  }

  /** Ban records the reason and blocks voting; unban clears both. */
  method BanScenario(deployer: Address, alice: Address, reason: string)
    returns (banned: Profile, canVote: bool, unbanned: Profile, canVoteAfter: bool)
    ensures banned.isBanned && banned.banReason == reason && !canVote
    ensures !unbanned.isBanned && unbanned.banReason == "" && canVoteAfter
  {
    var auth := new VotingAuth(deployer);
    var reg := auth.RegisterUser(alice);
    var b := auth.BanUser(deployer, alice, reason);
    banned := auth.ProfileOf(alice);
    canVote := auth.CanUserVote(alice);
    var u := auth.UnbanUser(deployer, alice);
    unbanned := auth.ProfileOf(alice);
    canVoteAfter := auth.CanUserVote(alice);
  }

  /** Moderator management, admin transfer and pausing, by the admin and by someone else. */
  method AdminScenario(deployer: Address, alice: Address, bob: Address)
    returns (added: bool, removed: bool, foreignAdd: Outcome, foreignTransfer: Outcome,
             foreignPause: Outcome, pausedAfterPause: bool, pausedAfterUnpause: bool, newAdminIsModerator: bool)
    requires alice != deployer
    ensures added && !removed
    ensures foreignAdd == Reverted(NotAdmin) && foreignTransfer == Reverted(NotAdmin) && foreignPause == Reverted(NotAdmin)
    ensures Reason(foreignAdd.error) == "Only admin can perform this action"
    ensures pausedAfterPause && !pausedAfterUnpause
    ensures newAdminIsModerator
  {
    var auth := new VotingAuth(deployer);
    var reg := auth.RegisterUser(alice);
    var a := auth.AddModerator(deployer, alice);
    added := auth.IsModerator(alice);
    var d := auth.RemoveModerator(deployer, alice);
    removed := auth.IsModerator(alice);
    foreignAdd := auth.AddModerator(alice, bob);
    foreignTransfer := auth.TransferAdmin(alice, bob);
    foreignPause := auth.Pause(alice);
    var p := auth.Pause(deployer);
    pausedAfterPause := auth.paused;
    var u := auth.Unpause(deployer);
    pausedAfterUnpause := auth.paused;
    var t := auth.TransferAdmin(deployer, alice);
    newAdminIsModerator := auth.IsModerator(alice);
  }
}
