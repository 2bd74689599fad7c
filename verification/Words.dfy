// The machine's 64-bit data words and the two-operand computations of the function unit.
module Words {

  datatype Option<+T> = None | Some(value: T)

  type Data = bv64

  datatype BinOp = Add | Sub | Mul | BitAnd | BitXor | BitOr | Shl | Shr
                 | Equals | NotEquals | Less | Greater | LessEq | GreaterEq

  predicate SignedLess(a: Data, b: Data) {
    (a ^ 0x8000_0000_0000_0000) < (b ^ 0x8000_0000_0000_0000)
  }

  function Flag(b: bool): Data { if b then 1 else 0 }

  // Shifting by the width or more is undefined in C; the hardware masks the amount.
  function ShiftAmount(b: Data): bv7 { (b & 63) as bv7 }

  function Compute(op: BinOp, a: Data, b: Data): Data {
    match op
    case Add => a + b
    case Sub => a - b
    case Mul => a * b
    case BitAnd => a & b
    case BitXor => a ^ b
    case BitOr => a | b
    case Shl => a << ShiftAmount(b)
    case Shr => a >> ShiftAmount(b)
    case Equals => Flag(a == b)
    case NotEquals => Flag(a != b)
    case Less => Flag(SignedLess(a, b))
    case Greater => Flag(SignedLess(b, a))
    case LessEq => Flag(!SignedLess(b, a))
    case GreaterEq => Flag(!SignedLess(a, b))
  }
}
