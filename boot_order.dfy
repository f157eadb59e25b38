/**
 * `parseBootOrder`: the first character of the boot-order string picks the
 * BIOS boot device code; anything the table does not list, including an
 * empty or absent string, falls back to the hard disk.
 */
module BootOrder {
  import opened Wrappers

  const FloppyA: int := 0x01
  const FloppyB: int := 0x02
  const HardDisk: int := 0x80
  const CdRom: int := 0x81
  const Network: int := 0x82

  /** The codes the launcher can hand to the engine. */
  predicate IsBootCode(code: int) {
    code == FloppyA || code == FloppyB || code == HardDisk || code == CdRom || code == Network
  }

  /** The `bootMap` table, keyed by one lower-case letter. */
  function BootMap(letter: char): Option<int> {
    match letter
    case 'a' => Some(FloppyA)
    case 'b' => Some(FloppyB)
    case 'c' => Some(HardDisk)
    case 'd' => Some(CdRom)
    case 'n' => Some(Network)
    case _ => None
  }

  /** `bootStr?.charAt(0)`: nothing for an absent string, the empty key for an empty one. */
  function FirstChar(boot: Option<string>): Option<char> {
    if boot.None? || boot.value == [] then None else Some(boot.value[0])
  }

  function ParseBootOrder(boot: Option<string>): (code: int)
    ensures IsBootCode(code)
    ensures code == HardDisk <==>
      boot.None? || boot.value == [] || boot.value[0] !in {'a', 'b', 'd', 'n'}
  {
    match FirstChar(boot)
    case None => HardDisk
    case Some(c) => BootMap(c).GetOr(HardDisk)
  }

  /** The table read backwards: the letter that selects each code. */
  function DeviceLetter(code: int): (letter: char)
    requires IsBootCode(code)
  {
    if code == FloppyA then 'a'
    else if code == FloppyB then 'b'
    else if code == HardDisk then 'c'
    else if code == CdRom then 'd'
    else 'n'
  }

  /** Every code is reachable, from its own letter followed by anything. */
  lemma ParseBootOrderInverse(code: int, rest: string)
    requires IsBootCode(code)
    ensures ParseBootOrder(Some([DeviceLetter(code)] + rest)) == code
  {
  }

  /** Only the first character matters. */
  lemma ParseBootOrderFirstCharOnly(s: string, t: string)
    requires s != [] && t != [] && s[0] == t[0]
    ensures ParseBootOrder(Some(s)) == ParseBootOrder(Some(t))
  {
  }

  /** The documented cases: empty, absent, unknown and upper-case letters are the hard disk. */
  lemma ParseBootOrderExamples()
    ensures ParseBootOrder(Some("")) == HardDisk
    ensures ParseBootOrder(None) == HardDisk
    ensures ParseBootOrder(Some("z")) == HardDisk
    ensures ParseBootOrder(Some("D")) == HardDisk
    ensures ParseBootOrder(Some("d")) == CdRom
    ensures ParseBootOrder(Some("cd")) == HardDisk
    ensures ParseBootOrder(Some("n")) == Network
  {
  }
}
