/**
 * The system bus: an ordered list of devices, each of which decides for
 * itself which global addresses it answers to. Every access asks the
 * devices in registration order and hands the access to the first one
 * that claims the address.
 */
module Bus {
  import opened Optional
  import opened Binary
  import opened Addresses

  /**
   * A device on the bus that behaves like plain memory: `decode` translates
   * a global address into a device-local one, or refuses it, and `cells`
   * holds the bytes stored so far. A cell never stored to reads as 0.
   */
  class BusDevice {
    const decode: Address -> Option<Address>
    var cells: map<Address, Byte>

    constructor (decode: Address -> Option<Address>)
      ensures this.decode == decode && cells == map[]
    {
      this.decode := decode;
      cells := map[];
    }

    /** `SystemBusDevice::readByte` at a device-local address: `Peek` of the cells. */
    function ReadByte(local: Address): Byte
      reads this
    {
      Peek(cells, local)
    }

    /** `SystemBusDevice::storeByte` at a device-local address. */
    method StoreByte(local: Address, value: Byte)
      modifies this
      ensures cells == old(cells)[local := value]
    {
      cells := cells[local := value];
    }
  }

  /** The byte a plain-memory store holds at a location. */
  function Peek(cells: map<Address, Byte>, local: Address): Byte
  {
    if local in cells then cells[local] else 0
  }

  /**
   * Plain memory: a read after a store gives the stored byte at the stored
   * location and what was there before everywhere else.
   */
  lemma PeekAfterStore(cells: map<Address, Byte>, local: Address, value: Byte, other: Address)
    ensures Peek(cells[local := value], local) == value
    ensures other != local ==> Peek(cells[local := value], other) == Peek(cells, other)
  {
  }

  /** The little-endian word at `local` and the byte after it. */
  function WordFrom(cells: map<Address, Byte>, local: Address): Word
  {
    ComposeWord(Peek(cells, local), Peek(cells, IncrementOffsetBy(local, 1)))
  }

  /** The three-byte pointer at `local`: offset low byte, offset high byte, bank. */
  function AddressFrom(cells: map<Address, Byte>, local: Address): Address
  {
    Address(Peek(cells, IncrementOffsetBy(local, 2)), WordFrom(cells, local))
  }

  /** A store holding `value` little-endian at `local` and the byte after it. */
  function WithWord(cells: map<Address, Byte>, local: Address, value: Word): map<Address, Byte>
  {
    cells[local := LowByte(value)][IncrementOffsetBy(local, 1) := HighByte(value)]
  }

  /**
   * Writing a word and reading it back from the same store gives the word,
   * and no location other than the two written ones changes.
   */
  lemma WordRoundTrip(cells: map<Address, Byte>, local: Address, value: Word)
    ensures WordFrom(WithWord(cells, local, value), local) == value
    ensures forall m :: m != local && m != IncrementOffsetBy(local, 1) ==>
              Peek(WithWord(cells, local, value), m) == Peek(cells, m)
  {
  }

  /**
   * Bytes `lsb`, `msb`, `bank` stored at `local` and the two locations after
   * it read back as the pointer `(bank, msb * 0x100 + lsb)`.
   */
  lemma AddressFromBytes(cells: map<Address, Byte>, local: Address, lsb: Byte, msb: Byte, bank: Byte)
    ensures AddressFrom(cells[local := lsb][IncrementOffsetBy(local, 1) := msb][IncrementOffsetBy(local, 2) := bank], local)
            == Address(bank, msb * 0x100 + lsb)
  {
  }

  /** The device that gets an access (its position on the bus) and the local address it decoded. */
  datatype Claim = Claim(index: nat, local: Address)

  /**
   * The first device of `devices` whose decoder accepts `address`, or None
   * when no device does: registration order is decode priority.
   */
  function FirstClaim(devices: seq<BusDevice>, address: Address): (r: Option<Claim>)
    ensures r.Some? ==>
              r.value.index < |devices| &&
              devices[r.value.index].decode(address) == Some(r.value.local) &&
              forall j :: 0 <= j < r.value.index ==> devices[j].decode(address).None?
    ensures r.None? <==> forall j :: 0 <= j < |devices| ==> devices[j].decode(address).None?
  {
    if |devices| == 0 then None
    else match devices[0].decode(address)
      case Some(local) => Some(Claim(0, local))
      case None =>
        match FirstClaim(devices[1..], address)
        case None => None
        case Some(c) => Some(Claim(c.index + 1, c.local))
  }

  /**
   * Registering a device at the end keeps every address an earlier device
   * claims with that device; only addresses nobody claimed can go to the
   * new one.
   */
  lemma RegisterKeepsPriority(devices: seq<BusDevice>, device: BusDevice, address: Address)
    ensures FirstClaim(devices, address).Some? ==>
              FirstClaim(devices + [device], address) == FirstClaim(devices, address)
    ensures FirstClaim(devices, address).None? ==>
              FirstClaim(devices + [device], address) ==
                match device.decode(address)
                case None => None
                case Some(local) => Some(Claim(|devices|, local))
  {
    var all := devices + [device];
    assert forall j :: 0 <= j < |devices| ==> all[j] == devices[j];
    assert all[|devices|] == device;
  }

  /** What `SystemBus::readByte` returns: the first claimant's byte, or 0. */
  function ByteAt(devices: seq<BusDevice>, address: Address): Byte
    reads devices
  {
    match FirstClaim(devices, address)
    case None => 0
    case Some(c) => devices[c.index].ReadByte(c.local)
  }

  /** What `SystemBus::readTwoBytes` returns: the first claimant's word, or 0. */
  function WordAt(devices: seq<BusDevice>, address: Address): Word
    reads devices
  {
    match FirstClaim(devices, address)
    case None => 0
    case Some(c) => WordFrom(devices[c.index].cells, c.local)
  }

  /** What `SystemBus::readAddressAt` returns: the first claimant's pointer, or (0x00, 0x0000). */
  function AddressAt(devices: seq<BusDevice>, address: Address): Address
    reads devices
  {
    match FirstClaim(devices, address)
    case None => Address(0x00, 0x0000)
    case Some(c) => AddressFrom(devices[c.index].cells, c.local)
  }

  /** An address no device claims reads as 0 at every width and as the zero pointer. */
  lemma UnclaimedReadsZero(devices: seq<BusDevice>, address: Address)
    requires forall j :: 0 <= j < |devices| ==> devices[j].decode(address).None?
    ensures ByteAt(devices, address) == 0
    ensures WordAt(devices, address) == 0
    ensures AddressAt(devices, address) == Address(0x00, 0x0000)
  {
  }

  /**
   * When device `i` claims the address and no earlier one does, every read
   * is served by device `i` at the local address it decoded, even if later
   * devices claim the address too.
   */
  lemma EarliestClaimantServes(devices: seq<BusDevice>, address: Address, i: nat, local: Address)
    requires i < |devices| && devices[i].decode(address) == Some(local)
    requires forall j :: 0 <= j < i ==> devices[j].decode(address).None?
    ensures ByteAt(devices, address) == Peek(devices[i].cells, local)
    ensures WordAt(devices, address) ==
              Peek(devices[i].cells, IncrementOffsetBy(local, 1)) * 0x100 + Peek(devices[i].cells, local)
    ensures AddressAt(devices, address) ==
              Address(Peek(devices[i].cells, IncrementOffsetBy(local, 2)), WordAt(devices, address))
  {
  }

  class SystemBus {
    /** The registered devices, in decode-priority order; the bus does not own them. */
    var devices: seq<BusDevice>

    constructor ()
      ensures devices == []
    {
      devices := [];
    }

    /** `SystemBus::registerDevice`: appends the device, lowest priority. */
    method RegisterDevice(device: BusDevice)
      modifies this
      ensures devices == old(devices) + [device]
      ensures forall a :: FirstClaim(old(devices), a).Some? ==> FirstClaim(devices, a) == FirstClaim(old(devices), a)
    {
      devices := devices + [device];
      forall a | FirstClaim(old(devices), a).Some?
        ensures FirstClaim(devices, a) == FirstClaim(old(devices), a)
      {
        RegisterKeepsPriority(old(devices), device, a);
      }
    }

    /**
     * `SystemBus::storeByte`: the first claimant stores the byte at its
     * decoded address; no other device and no other cell changes, and an
     * address nobody claims changes nothing.
     */
    method StoreByte(address: Address, value: Byte)
      modifies devices
      ensures match FirstClaim(devices, address)
        case None => forall d :: d in devices ==> d.cells == old(d.cells)
        case Some(c) =>
          devices[c.index].cells == old(devices[c.index].cells)[c.local := value] &&
          forall d :: d in devices && d != devices[c.index] ==> d.cells == old(d.cells)
      ensures FirstClaim(devices, address).Some? ==> ByteAt(devices, address) == value
    {
      var i := 0;
      while i < |devices|
        invariant 0 <= i <= |devices|
        invariant forall j :: 0 <= j < i ==> devices[j].decode(address).None?
        invariant forall d :: d in devices ==> d.cells == old(d.cells)
      {
        var device := devices[i];
        match device.decode(address)
        case Some(decoded) =>
          device.StoreByte(decoded, value);
          return;
        case None =>
          i := i + 1;
      }
    }

    /**
     * `SystemBus::storeTwoBytes`: decodes once, then the first claimant
     * stores the low byte at the decoded address and the high byte one
     * byte after it; nothing else changes. Reading the word back returns it.
     */
    method StoreTwoBytes(address: Address, value: Word)
      modifies devices
      ensures match FirstClaim(devices, address)
        case None => forall d :: d in devices ==> d.cells == old(d.cells)
        case Some(c) =>
          devices[c.index].cells == WithWord(old(devices[c.index].cells), c.local, value) &&
          forall d :: d in devices && d != devices[c.index] ==> d.cells == old(d.cells)
      ensures FirstClaim(devices, address).Some? ==> WordAt(devices, address) == value
    {
      var i := 0;
      while i < |devices|
        invariant 0 <= i <= |devices|
        invariant forall j :: 0 <= j < i ==> devices[j].decode(address).None?
        invariant forall d :: d in devices ==> d.cells == old(d.cells)
      {
        var device := devices[i];
        match device.decode(address)
        case Some(local) =>
          ghost var before := device.cells;
          var decoded := local;
          var lsb := LowByte(value);
          var msb := HighByte(value);
          device.StoreByte(decoded, lsb);
          decoded := IncrementOffsetBy(decoded, 1);
          device.StoreByte(decoded, msb);
          WordRoundTrip(before, local, value);
          return;
        case None =>
          i := i + 1;
      }
    }

    /** `SystemBus::readByte`. */
    method ReadByte(address: Address) returns (value: Byte)
      ensures value == ByteAt(devices, address)
    {
      var i := 0;
      while i < |devices|
        invariant 0 <= i <= |devices|
        invariant forall j :: 0 <= j < i ==> devices[j].decode(address).None?
      {
        var device := devices[i];
        match device.decode(address)
        case Some(decoded) =>
          return device.ReadByte(decoded);
        case None =>
          i := i + 1;
      }
      return 0;
    }

    /** `SystemBus::readTwoBytes`: decodes once and reads two bytes of the claimant. */
    method ReadTwoBytes(address: Address) returns (value: Word)
      ensures value == WordAt(devices, address)
    {
      var i := 0;
      while i < |devices|
        invariant 0 <= i <= |devices|
        invariant forall j :: 0 <= j < i ==> devices[j].decode(address).None?
      {
        var device := devices[i];
        match device.decode(address)
        case Some(local) =>
          var decoded := local;
          var lsb := device.ReadByte(decoded);
          decoded := IncrementOffsetBy(decoded, 1);
          var msb := device.ReadByte(decoded);
          return ComposeWord(lsb, msb);
        case None =>
          i := i + 1;
      }
      return 0;
    }

    /**
     * `SystemBus::readAddressAt`: decodes once and reads offset low, offset
     * high and bank from three consecutive cells of the claimant. The decoded
     * address starts as (0x00, 0x0000) and is what is returned when no device
     * claims the address.
     */
    method ReadAddressAt(address: Address) returns (result: Address)
      ensures result == AddressAt(devices, address)
    {
      var decoded := Address(0x00, 0x0000);
      var i := 0;
      while i < |devices|
        invariant 0 <= i <= |devices|
        invariant forall j :: 0 <= j < i ==> devices[j].decode(address).None?
        invariant decoded == Address(0x00, 0x0000)
      {
        var device := devices[i];
        match device.decode(address)
        case Some(local) =>
          decoded := local;
          var lsb := device.ReadByte(decoded);
          decoded := IncrementOffsetBy(decoded, 1);
          var msb := device.ReadByte(decoded);
          var offset := ComposeWord(lsb, msb);
          decoded := IncrementOffsetBy(decoded, 1);
          var bank := device.ReadByte(decoded);
          NextTwoAreDistinct(local);
          return Address(bank, offset);
        case None =>
          i := i + 1;
      }
      return decoded;
    }
  }
}
