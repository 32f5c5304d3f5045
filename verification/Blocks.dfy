/** Computers in the account database: enrolling, registering, removing and blocking them. */
module Blocks {
  import opened Wrappers
  import opened Rendezvous
  import Signaling

  datatype DeviceRecord = DeviceRecord(account: Account, approved: bool, blockedAt: Option<int>)

  /** The tables; of an account and of an installation, only since when they are blocked. */
  datatype Store = Store(accounts: map<Account, Option<int>>, devices: map<Device, DeviceRecord>, installations: map<Device, Option<int>>)

  // ---- the rows ------------------------------------------------------------------------------------

  /** Inserts, or updates everything but the block. */
  function SaveDevice(s: Store, d: Device, account: Account, approved: bool): Store {
    var blockedAt := if d in s.devices then s.devices[d].blockedAt else None;
    s.(devices := s.devices[d := DeviceRecord(account, approved, blockedAt)])
  }

  function SaveInstallation(s: Store, d: Device): Store {
    if d in s.installations then s else s.(installations := s.installations[d := None])
  }

  function SetDeviceBlock(s: Store, d: Device, at: Option<int>): Store {
    if d in s.devices then s.(devices := s.devices[d := s.devices[d].(blockedAt := at)]) else s
  }

  function SetInstallationBlock(s: Store, d: Device, at: Option<int>): Store {
    if d in s.installations then s.(installations := s.installations[d := at]) else s
  }

  function SetAccountBlock(s: Store, a: Account, at: Option<int>): Store {
    if a in s.accounts then s.(accounts := s.accounts[a := at]) else s
  }

  // ---- the API ----------------------------------------------------------------------------------------

  /** By any of the three routes. */
  predicate IsBlocked(s: Store, d: Device) {
    || (d in s.installations && s.installations[d].Some?)
    || (d in s.devices && (s.devices[d].blockedAt.Some?
                           || (s.devices[d].account in s.accounts && s.accounts[s.devices[d].account].Some?)))
  }

  datatype Who = Who(account: Account, device: Option<Device>, byDevice: bool)

  datatype Answer = Ok | Forbidden | BadProof | Claimed | NotFound | SameDevice

  /** The first computer of an account vouches for itself; one that is there keeps its approval. */
  predicate Approved(s: Store, account: Account, d: Device) {
    if d in s.devices && s.devices[d].account == account then s.devices[d].approved
    else forall x :: x in s.devices && s.devices[x].account == account ==> !s.devices[x].approved
  }

  /** `proof`: the challenge is this account's, and the key and signature fit the Device ID. */
  function Enrol(s: Store, who: Who, d: Device, proof: bool): (Store, Answer) {
    if who.byDevice then (s, Forbidden)
    else if !proof then (s, BadProof)
    else if d in s.devices && s.devices[d].account != who.account then (s, Claimed)
    else (SaveDevice(s, d, who.account, Approved(s, who.account, d)), Ok)
  }

  function Approve(s: Store, who: Who, d: Device): (Store, Answer) {
    if who.device.None? || who.device.value !in s.devices || !s.devices[who.device.value].approved then (s, Forbidden)
    else if d !in s.devices || s.devices[d].account != who.account then (s, NotFound)
    else if who.device.value == d then (s, SameDevice)
    else (s.(devices := s.devices[d := s.devices[d].(approved := true)]), Ok)
  }

  function RemoveDevice(s: Store, who: Who, d: Device): (Store, Answer) {
    if who.byDevice && who.device != Some(d) then (s, Forbidden)
    else if d !in s.devices || s.devices[d].account != who.account then (s, NotFound)
    else (s.(devices := s.devices - {d}), Ok)
  }

  function Register(s: Store, d: Device, proof: bool): (Store, Answer) {
    if !proof then (s, BadProof) else (SaveInstallation(s, d), Ok)
  }

  /** An administrator's block or unblock reaches the records there are. */
  function SetBlocked(s: Store, d: Device, at: Option<int>): (Store, Answer) {
    if d !in s.devices && d !in s.installations then (s, NotFound)
    else (SetInstallationBlock(SetDeviceBlock(s, d, at), d, at), Ok)
  }

  /** What the relay asks of the database at one moment. */
  function RegistryOf(s: Store, holders: map<Signaling.Token, Signaling.Holder>, refused: set<Signaling.Token>): Signaling.Registry {
    Signaling.Registry(map d | d in s.devices :: Signaling.DeviceRow(s.devices[d].account, s.devices[d].approved),
                       (set d | d in s.devices.Keys + s.installations.Keys && IsBlocked(s, d)), holders, refused)
  }

  class Api {
    var accounts: map<Account, Option<int>>
    var devices: map<Device, DeviceRecord>
    var installations: map<Device, Option<int>>

    ghost function View(): Store
      reads this
    {
      Store(accounts, devices, installations)
    }

    constructor ()
      ensures View() == Store(map[], map[], map[])
    {
      accounts, devices, installations := map[], map[], map[];
    }

    method EnrolDevice(who: Who, d: Device, proof: bool) returns (r: Answer)
      modifies this`devices
      ensures (View(), r) == Enrol(old(View()), who, d, proof)
    {
      if who.byDevice {
        return Forbidden;
      }
      if !proof {
        return BadProof;
      }
      var approved := if d in devices && devices[d].account == who.account then devices[d].approved
                      else forall x :: x in devices && devices[x].account == who.account ==> !devices[x].approved;
      if d in devices && devices[d].account != who.account {
        return Claimed;
      }
      devices := devices[d := DeviceRecord(who.account, approved, if d in devices then devices[d].blockedAt else None)];
      r := Ok;
    }

    method ApproveDevice(who: Who, d: Device) returns (r: Answer)
      modifies this`devices
      ensures (View(), r) == Approve(old(View()), who, d)
    {
      if who.device.None? || who.device.value !in devices || !devices[who.device.value].approved {
        return Forbidden;
      }
      if d !in devices || devices[d].account != who.account {
        return NotFound;
      }
      if who.device.value == d {
        return SameDevice;
      }
      devices := devices[d := devices[d].(approved := true)];
      r := Ok;
    }

    method Remove(who: Who, d: Device) returns (r: Answer)
      modifies this`devices
      ensures (View(), r) == RemoveDevice(old(View()), who, d)
    {
      if who.byDevice && who.device != Some(d) {
        return Forbidden;
      }
      if d !in devices || devices[d].account != who.account {
        return NotFound;
      }
      devices := devices - {d};
      r := Ok;
    }

    method RegisterInstallation(d: Device, proof: bool) returns (r: Answer)
      modifies this`installations
      ensures (View(), r) == Register(old(View()), d, proof)
    {
      if !proof {
        return BadProof;
      }
      if d !in installations {
        installations := installations[d := None];
      }
      r := Ok;
    }

    method AdminSetBlocked(d: Device, at: Option<int>) returns (r: Answer)
      modifies this`devices, this`installations
      ensures (View(), r) == SetBlocked(old(View()), d, at)
    {
      if d !in devices && d !in installations {
        return NotFound;
      }
      if d in devices {
        devices := devices[d := devices[d].(blockedAt := at)];
      }
      if d in installations {
        installations := installations[d := at];
      }
      r := Ok;
    }

    function IsBlockedHere(d: Device): (r: bool)
      reads this
      ensures r == IsBlocked(View(), d)
    {
      if d in installations && installations[d].Some? then true
      else if d !in devices then false
      else if devices[d].blockedAt.Some? then true
      else devices[d].account in accounts && accounts[devices[d].account].Some?
    }
  }
}
