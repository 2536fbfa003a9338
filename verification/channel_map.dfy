/** The placeholder wire/board channel map of the DAQ analysis: every wire
    is read out on slot 0, FEM 0, at a channel index equal to its wire id. */
module ChannelMap {
  import opened Types

  /** `raw::ChannelID_t`, an unsigned 32-bit wire id. */
  type WireId = UInt32

  /** A readout address: crate slot, front-end module and channel within it. */
  datatype BoardChannel = BoardChannel(slotNo: SizeT, femNo: SizeT, channelInd: SizeT)

  const NBoards: nat := 1
  const NFemPerBoard: nat := 1
  const NChannelPerFem: nat := 16

  /** The readout address of a wire. */
  function Wire2Channel(wire: WireId): (c: BoardChannel)
    ensures c.slotNo == 0 && c.femNo == 0
    ensures c.channelInd == wire
  {
    BoardChannel(0, 0, wire)
  }

  /** The wire read out at an address; only the channel index is used, and it
      is narrowed from `size_t` to the 32-bit wire id. */
  function Channel2Wire(c: BoardChannel): (wire: WireId)
    ensures c.channelInd < TwoTo32 ==> wire == c.channelInd
    ensures (c.channelInd - wire) % TwoTo32 == 0
  {
    NarrowToU32(c.channelInd)
  }

  /** The three-argument overload, which packs its arguments into an address. */
  function Channel2WireAt(cardNo: SizeT, femNo: SizeT, channelId: SizeT): (wire: WireId)
    ensures forall otherCard: SizeT, otherFem: SizeT :: wire == Channel2Wire(BoardChannel(otherCard, otherFem, channelId))
  {
    Channel2Wire(BoardChannel(cardNo, femNo, channelId))
  }

  /** The board holding a front-end module: always board 0. */
  function Board(fem: UInt32): (board: UInt32)
    ensures board < NBoards
  {
    0
  }

  /** Plane of a wire: 1 is the induction plane, 2 the collection plane. */
  function PlaneType(wireNo: UInt32): (plane: UInt32)
    ensures plane == 1 || plane == 2
    ensures plane == 1 <==> wireNo < 240
  {
    if wireNo < 240 then 1 else 2
  }

  /** Mapping a wire to its address and back yields the wire. */
  lemma WireRoundTrip(wire: WireId)
    ensures Channel2Wire(Wire2Channel(wire)) == wire
  {
  }

  /** An address survives the opposite round trip exactly when it is one that
      `Wire2Channel` produces: slot 0, FEM 0 and an index that fits 32 bits. */
  lemma AddressRoundTrip(c: BoardChannel)
    ensures Wire2Channel(Channel2Wire(c)) == c <==> (c.slotNo == 0 && c.femNo == 0 && c.channelInd < TwoTo32)
  {
  }

  /** Distinct wires get distinct addresses. */
  lemma Wire2ChannelInjective(a: WireId, b: WireId)
    ensures Wire2Channel(a) == Wire2Channel(b) ==> a == b
  {
  }

  /** The plane classification never moves back from collection to induction
      as the wire number grows. */
  lemma PlaneTypeMonotone(a: UInt32, b: UInt32)
    requires a <= b
    ensures PlaneType(a) <= PlaneType(b)
  {
  }

  /** The board/FEM/channel constants describe 16 readout channels in all. */
  lemma ChannelCount()
    ensures NBoards * NFemPerBoard * NChannelPerFem == 16
  {
  }
}
