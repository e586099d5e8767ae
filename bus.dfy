/**
 * The I2C bus as the scripts see it: a block read addressed to a chip, with
 * the configuration byte as the command and a byte count. The device's answer
 * is an input of the model.
 */
module Bus {
  import Register

  /** `read_i2c_block_data(addr, cmd, size)` / `readI2cBlockSync(addr, cmd, size, buf)`. */
  datatype Request = Request(addr: int, cmd: Register.Byte, size: nat)

  /** The bytes read, or the error the bus library raises (no device at the address). */
  datatype Reply = Block(bytes: seq<Register.Byte>) | IoError

  /** The requests the bus answers, with the bytes it delivers; any other request raises. */
  type Bus = imap<Request, seq<Register.Byte>>

  function Transfer(bus: Bus, q: Request): Reply {
    if q in bus then Block(bus[q]) else IoError
  }

  /** A successful block read delivers exactly the bytes asked for. */
  ghost predicate WellFormed(bus: Bus) {
    forall q :: q in bus ==> |bus[q]| == q.size
  }
}
