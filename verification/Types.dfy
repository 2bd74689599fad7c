// Destination words, tags, instructions, tokens and packets.
module Types {
  import opened Words

  type Destination = bv32
  type TagBits = bv64

  // A destination packs the address of an instruction, which of its inputs, and how to match there.
  function Address(d: Destination): bv32 { d >> 4 }
  function InputOf(d: Destination): bv32 { (d >> 3) & 1 }
  function MatchingOf(d: Destination): bv32 { d & 3 }
  function CreateDestination(a: bv32, input: bv32, m: bv32): Destination { (((a << 1) ^ input) << 3) ^ m }

  const MATCHING_ONE: bv32 := 0
  const MATCHING_BOTH: bv32 := 1
  const MATCHING_ANY: bv32 := 2

  const INPUT_ONE: bv32 := 0
  const INPUT_TWO: bv32 := 1

  const OUTPUTD: Destination := CreateDestination(0xFFF_FFFF, 0, MATCHING_ONE)
  const OUTPUTS: Destination := CreateDestination(0xFFF_FFFE, 0, MATCHING_ONE)
  const REGISTER_INPUT_HANDLER: Destination := CreateDestination(0xFFF_FFFD, 0, MATCHING_ONE)
  const DEREGISTER_INPUT_HANDLER: Destination := CreateDestination(0xFFF_FFFC, 0, MATCHING_ONE)
  const DEV_NULL: Destination := CreateDestination(0xFFF_FFFB, 0, MATCHING_ONE)

  // Packing loses nothing for a 28-bit address.
  lemma DestinationRoundTrip(a: bv32, input: bv32, m: bv32)
    requires a < 0x1000_0000 && input < 2 && m < 4
    ensures var d := CreateDestination(a, input, m);
      Address(d) == a && InputOf(d) == input && MatchingOf(d) == m
  {
  }

  // Every word is the packing of its three fields, the unused third matching bit aside.
  lemma DestinationFields(d: Destination)
    ensures CreateDestination(Address(d), InputOf(d), MatchingOf(d)) == d & 0xFFFF_FFFB
    ensures Address(d) < 0x1000_0000 && InputOf(d) < 2 && MatchingOf(d) < 4
  {
  }

  const NO_TAG: TagBits := 0

  function CreateTag(area: bv32, iteration: bv32): TagBits { ((area as bv64) << 32) ^ (iteration as bv64) }
  function TagArea(t: TagBits): bv32 { (t >> 32) as bv32 }
  function TagIteration(t: TagBits): bv32 { (t & 0xFFFF_FFFF) as bv32 }

  lemma TagRoundTrip(area: bv32, iteration: bv32)
    ensures TagArea(CreateTag(area, iteration)) == area && TagIteration(CreateTag(area, iteration)) == iteration
  {
  }

  // Counting an iteration on stays inside the area exactly while the count does not wrap.
  lemma NextIteration(t: TagBits)
    ensures t + 1 == CreateTag(TagArea(t), TagIteration(t) + 1) <==> TagIteration(t) != 0xFFFF_FFFF
  {
  }

  // The opcodes whose result depends on the packet (and, for NTG, on the drawn area) alone.
  datatype Opcode = BIN(op: BinOp) | BRR | DUP | NEG | MER | NTG | ITG | SIL | CTG | RTD | ETG

  function NumInputs(op: Opcode): nat {
    match op
    case BIN(_) => 2
    case BRR => 2
    case SIL => 2
    case CTG => 2
    case RTD => 2
    case _ => 1   // MER has two inputs, but takes one token at a time
  }

  datatype LiteralCount = NONE | ONE | TWO

  datatype Instruction = Instruction(opcode: Opcode, destination1: Destination, destination2: Destination,
                                     both: bool, literal1: Data, literal2: Data, literals: LiteralCount)

  datatype Token = Token(destination: Destination, data: Data, tag: TagBits)

  datatype Packet = Packet(data1: Data, data2: Data, opcode: Opcode, tag: TagBits, destination1: Destination,
                           destination2: Destination, input: Destination, both: bool)
}
