/**
 * The command schema of the display wire format: the 6-bit opcode
 * enumeration, the header struct that carries it, and the nine payload
 * structs with the bit widths declared for their fields.
 */
module DrawCommandDefs {
  import opened IntTypes

  /** Width of the opcode field of the `DrawCommand` header. */
  const OpcodeBits: nat := 6

  /** The opcode enumeration, grouped as configuration (CFG), control (CTRL) and draw (DRW). */
  datatype Opcode =
    | CfgZlvl      // SetStripZLevel
    | CfgOfs       // SetTimingOffset
    | CfgTscl      // SetTimingScale
    | CtrlClr      // ClearMemory
    | CtrlZlq      // SetZLevelQuad
    | CtrlColor    // SetPaletteColor
    | DrwZord      // DrawZOrderPixels
    | DrwXyPxl     // DrawXYPixel
    | DrwXyRect    // DrawRect
  {
    predicate IsConfiguration() { CfgZlvl? || CfgOfs? || CfgTscl? }
    predicate IsDraw() { DrwZord? || DrwXyPxl? || DrwXyRect? }
  }

  /** The numeric value of each enumeration constant. */
  function Code(op: Opcode): (v: nat)
    ensures 0 < v < Pow2(OpcodeBits)
  {
    match op
    case CfgZlvl => 0x01
    case CfgOfs => 0x02
    case CfgTscl => 0x03
    case CtrlClr => 0x04
    case CtrlZlq => 0x05
    case CtrlColor => 0x06
    case DrwZord => 0x07
    case DrwXyPxl => 0x08
    case DrwXyRect => 0x09
  }

  /** The enumeration constant with value `v`, if there is one. */
  function FromCode(v: nat): (r: Option<Opcode>)
    ensures r.Some? <==> 1 <= v <= 9
    ensures r.Some? ==> Code(r.value) == v
  {
    if v == 0x01 then Some(CfgZlvl)
    else if v == 0x02 then Some(CfgOfs)
    else if v == 0x03 then Some(CfgTscl)
    else if v == 0x04 then Some(CtrlClr)
    else if v == 0x05 then Some(CtrlZlq)
    else if v == 0x06 then Some(CtrlColor)
    else if v == 0x07 then Some(DrwZord)
    else if v == 0x08 then Some(DrwXyPxl)
    else if v == 0x09 then Some(DrwXyRect)
    else None
  }

  /** Looking a constant's value back up gives the constant. */
  lemma FromCodeOfCode(op: Opcode)
    ensures FromCode(Code(op)) == Some(op)
  {
  }

  /** The opcodes are pairwise distinct. */
  lemma CodeInjective(a: Opcode, b: Opcode)
    ensures Code(a) == Code(b) <==> a == b
  {
  }

  /** Every constant of the enumeration, in declaration order. */
  const AllOpcodes: seq<Opcode> :=
    [CfgZlvl, CfgOfs, CfgTscl, CtrlClr, CtrlZlq, CtrlColor, DrwZord, DrwXyPxl, DrwXyRect]

  /**
   * The enumeration is exactly the values 0x01..0x09, in declaration order:
   * every opcode is listed once, and no opcode has the value 0x00.
   */
  lemma CodesAreOneToNine()
    ensures |AllOpcodes| == 9
    ensures forall op :: op in AllOpcodes
    ensures forall i | 0 <= i < |AllOpcodes| :: Code(AllOpcodes[i]) == i + 1
  {
    forall op ensures op in AllOpcodes {
      var i := Code(op) - 1;
      assert AllOpcodes[i] == op;
    }
  }

  /** The payload struct each opcode selects (the comment beside each constant). */
  function StructName(op: Opcode): string
  {
    match op
    case CfgZlvl => "SetStripZLevel"
    case CfgOfs => "SetTimingOffset"
    case CfgTscl => "SetTimingScale"
    case CtrlClr => "ClearMemory"
    case CtrlZlq => "SetZLevelQuad"
    case CtrlColor => "SetPaletteColor"
    case DrwZord => "DrawZOrderPixels"
    case DrwXyPxl => "DrawXYPixel"
    case DrwXyRect => "DrawRect"
  }

  /** No two opcodes name the same payload struct. */
  lemma StructNameInjective(a: Opcode, b: Opcode)
    ensures StructName(a) == StructName(b) <==> a == b
  {
  }

  /** The C integer type a struct field is stored in. */
  datatype Container = UInt8 | UInt16 | UInt32 {
    function Bits(): nat {
      match this
      case UInt8 => 8
      case UInt16 => 16
      case UInt32 => 32
    }

    /** Number of values the type can hold. */
    function Limit(): nat
    {
      match this
      case UInt8 => 0x100
      case UInt16 => 0x1_0000
      case UInt32 => 0x1_0000_0000
    }
  }

  /** A C type holds exactly the values below 2^(its size in bits). */
  lemma LimitIsPow2(c: Container)
    ensures c.Limit() == Pow2(c.Bits())
  {
    match c
    case UInt8 => assert Pow2(8) == 0x100;
    case UInt16 => assert Pow2(16) == 0x1_0000;
    case UInt32 =>
      assert Pow2(16) == 0x1_0000;
      Pow2Add(16, 16);
  }

  /** A struct field: its name, its declared wire width in bits, and its C type. */
  datatype FieldSpec = FieldSpec(name: string, width: nat, container: Container)

  /** The payload layout selected by each opcode, fields in declaration order. */
  function Schema(op: Opcode): seq<FieldSpec>
  {
    match op
    case CfgZlvl => [FieldSpec("zLevel", 8, UInt8)]
    case CfgOfs => [FieldSpec("offsetNanoseconds", 24, UInt32)]
    case CfgTscl => [FieldSpec("timeScaleFactor", 24, UInt32)]
    case CtrlClr => [FieldSpec("padding", 10, UInt16)]
    case CtrlZlq => [FieldSpec("quadrant", 2, UInt8), FieldSpec("zLevel", 8, UInt8)]
    case CtrlColor =>
      [FieldSpec("futureUse", 10, UInt16), FieldSpec("colorIdx", 8, UInt8),
       FieldSpec("red", 8, UInt8), FieldSpec("green", 8, UInt8), FieldSpec("blue", 8, UInt8)]
    case DrwZord =>
      [FieldSpec("drawMode", 2, UInt8), FieldSpec("zStart", 16, UInt16),
       FieldSpec("zEnd", 16, UInt16), FieldSpec("color", 8, UInt8)]
    case DrwXyPxl =>
      [FieldSpec("drawMode", 2, UInt8), FieldSpec("xPos", 8, UInt8),
       FieldSpec("yPos", 8, UInt8), FieldSpec("color", 8, UInt8)]
    case DrwXyRect =>
      [FieldSpec("drawMode", 2, UInt8), FieldSpec("xPos", 8, UInt8), FieldSpec("yPos", 8, UInt8),
       FieldSpec("width", 8, UInt8), FieldSpec("height", 8, UInt8), FieldSpec("color", 8, UInt8)]
  }

  /** Every declared width is at least one bit and fits the C type that holds the field. */
  lemma WidthsFitContainers(op: Opcode)
    ensures forall i | 0 <= i < |Schema(op)| :: 1 <= Schema(op)[i].width <= Schema(op)[i].container.Bits()
  {
  }

  /**
   * A declared width never admits more values than the field's C type
   * holds: 2^width is at most the type's range.
   */
  lemma DeclaredRangeWithinContainer(op: Opcode, i: nat)
    requires i < |Schema(op)|
    ensures Pow2(Schema(op)[i].width) <= Schema(op)[i].container.Limit()
  {
    var f := Schema(op)[i];
    WidthsFitContainers(op);
    LimitIsPow2(f.container);
    Pow2Monotone(f.width, f.container.Bits());
  }

  function FieldNames(fs: seq<FieldSpec>): (names: seq<string>)
    ensures |names| == |fs|
    ensures forall i | 0 <= i < |fs| :: names[i] == fs[i].name
  {
    if fs == [] then [] else [fs[0].name] + FieldNames(fs[1..])
  }

  /** Fields appear on the wire in their declaration order. */
  lemma FieldOrder()
    ensures FieldNames(Schema(CfgZlvl)) == ["zLevel"]
    ensures FieldNames(Schema(CfgOfs)) == ["offsetNanoseconds"]
    ensures FieldNames(Schema(CfgTscl)) == ["timeScaleFactor"]
    ensures FieldNames(Schema(CtrlClr)) == ["padding"]
    ensures FieldNames(Schema(CtrlZlq)) == ["quadrant", "zLevel"]
    ensures FieldNames(Schema(CtrlColor)) == ["futureUse", "colorIdx", "red", "green", "blue"]
    ensures FieldNames(Schema(DrwZord)) == ["drawMode", "zStart", "zEnd", "color"]
    ensures FieldNames(Schema(DrwXyPxl)) == ["drawMode", "xPos", "yPos", "color"]
    ensures FieldNames(Schema(DrwXyRect)) == ["drawMode", "xPos", "yPos", "width", "height", "color"]
  {
  }

  /** Every draw command begins with a 2-bit `drawMode` held in a byte. */
  lemma DrawCommandsStartWithDrawMode(op: Opcode)
    requires op.IsDraw()
    ensures |Schema(op)| > 0 && Schema(op)[0] == FieldSpec("drawMode", 2, UInt8)
  {
  }

  /** Sum of the declared widths of a field list. */
  function SumWidths(fs: seq<FieldSpec>): nat
  {
    if fs == [] then 0 else fs[0].width + SumWidths(fs[1..])
  }

  /** Sum of the storage sizes of the C types of a field list. */
  function SumContainerBits(fs: seq<FieldSpec>): nat
  {
    if fs == [] then 0 else fs[0].container.Bits() + SumContainerBits(fs[1..])
  }

  /** Declared payload bits, and bits on the wire once the opcode is prepended. */
  function PayloadBits(op: Opcode): nat { SumWidths(Schema(op)) }
  function CommandBits(op: Opcode): nat { OpcodeBits + PayloadBits(op) }

  /** The payload totals that follow from the declared widths. */
  lemma PayloadTotals()
    ensures PayloadBits(CfgZlvl) == 8
    ensures PayloadBits(CfgOfs) == 24 && PayloadBits(CfgTscl) == 24
    ensures PayloadBits(CtrlClr) == 10 && PayloadBits(CtrlZlq) == 10
    ensures PayloadBits(CtrlColor) == 42 && PayloadBits(DrwZord) == 42
    ensures PayloadBits(DrwXyPxl) == 26
    ensures PayloadBits(DrwXyRect) == 42
  {
  }

  /** Full command sizes, opcode included. */
  lemma CommandSizes()
    ensures CommandBits(CfgZlvl) == 14
    ensures CommandBits(CfgOfs) == 30 && CommandBits(CfgTscl) == 30
    ensures CommandBits(CtrlClr) == 16 && CommandBits(CtrlZlq) == 16
    ensures CommandBits(CtrlColor) == 48 && CommandBits(DrwZord) == 48
    ensures CommandBits(DrwXyPxl) == 32
    ensures CommandBits(DrwXyRect) == 48
  {
    PayloadTotals();
  }

  /** A command ends on a byte boundary exactly when it is not a configuration command. */
  lemma ByteAlignedIffNotConfiguration(op: Opcode)
    ensures CommandBits(op) % 8 == 0 <==> !op.IsConfiguration()
  {
    CommandSizes();
  }

  /** When each width fits its C type, the declared bits fit the storage of those types. */
  lemma {:induction false} SumWidthsWithinContainers(fs: seq<FieldSpec>)
    requires forall i | 0 <= i < |fs| :: fs[i].width <= fs[i].container.Bits()
    ensures SumWidths(fs) <= SumContainerBits(fs)
  {
    if fs != [] {
      assert forall i | 0 <= i < |fs[1..]| :: fs[1..][i] == fs[i + 1];
      SumWidthsWithinContainers(fs[1..]);
    }
  }

  /** No payload declares more bits than its struct stores. */
  lemma PayloadFitsStruct(op: Opcode)
    ensures PayloadBits(op) <= SumContainerBits(Schema(op))
  {
    WidthsFitContainers(op);
    SumWidthsWithinContainers(Schema(op));
  }

  /** The header struct: the opcode, declared 6 bits wide, stored in a byte. */
  datatype DrawCommand = DrawCommand(opcode: uint8)

  /** A value of one of the nine payload structs; each field keeps its C type. */
  datatype Payload =
    | SetStripZLevel(zLevel: uint8)
    | SetTimingOffset(offsetNanoseconds: uint32)
    | SetTimingScale(timeScaleFactor: uint32)
    | ClearMemory(padding: uint16)
    | SetZLevelQuad(quadrant: uint8, zLevel: uint8)
    | SetPaletteColor(futureUse: uint16, colorIdx: uint8, red: uint8, green: uint8, blue: uint8)
    | DrawZOrderPixels(drawMode: uint8, zStart: uint16, zEnd: uint16, color: uint8)
    | DrawXYPixel(drawMode: uint8, xPos: uint8, yPos: uint8, color: uint8)
    | DrawRect(drawMode: uint8, xPos: uint8, yPos: uint8, width: uint8, height: uint8, color: uint8)

  /** The opcode whose comment names this payload's struct. */
  function PayloadOpcode(p: Payload): (op: Opcode)
  {
    match p
    case SetStripZLevel(_) => CfgZlvl
    case SetTimingOffset(_) => CfgOfs
    case SetTimingScale(_) => CfgTscl
    case ClearMemory(_) => CtrlClr
    case SetZLevelQuad(_, _) => CtrlZlq
    case SetPaletteColor(_, _, _, _, _) => CtrlColor
    case DrawZOrderPixels(_, _, _, _) => DrwZord
    case DrawXYPixel(_, _, _, _) => DrwXyPxl
    case DrawRect(_, _, _, _, _, _) => DrwXyRect
  }

  /** The struct named by each payload's opcode is the payload's own struct. */
  lemma PayloadOpcodeNamesStruct(p: Payload)
    ensures StructName(PayloadOpcode(p)) == match p
      case SetStripZLevel(_) => "SetStripZLevel"
      case SetTimingOffset(_) => "SetTimingOffset"
      case SetTimingScale(_) => "SetTimingScale"
      case ClearMemory(_) => "ClearMemory"
      case SetZLevelQuad(_, _) => "SetZLevelQuad"
      case SetPaletteColor(_, _, _, _, _) => "SetPaletteColor"
      case DrawZOrderPixels(_, _, _, _) => "DrawZOrderPixels"
      case DrawXYPixel(_, _, _, _) => "DrawXYPixel"
      case DrawRect(_, _, _, _, _, _) => "DrawRect"
  {
  }

  /** The header that goes with a payload. */
  function HeaderFor(p: Payload): (h: DrawCommand)
    ensures h.opcode as nat < Pow2(OpcodeBits)
    ensures FromCode(h.opcode as nat) == Some(PayloadOpcode(p))
  {
    DrawCommand(Code(PayloadOpcode(p)) as uint8)
  }

  /** A payload's field values in declaration order. */
  function FieldValues(p: Payload): seq<nat>
  {
    match p
    case SetStripZLevel(z) => [z as nat]
    case SetTimingOffset(o) => [o as nat]
    case SetTimingScale(s) => [s as nat]
    case ClearMemory(pad) => [pad as nat]
    case SetZLevelQuad(q, z) => [q as nat, z as nat]
    case SetPaletteColor(f, i, r, g, b) => [f as nat, i as nat, r as nat, g as nat, b as nat]
    case DrawZOrderPixels(m, zs, ze, c) => [m as nat, zs as nat, ze as nat, c as nat]
    case DrawXYPixel(m, x, y, c) => [m as nat, x as nat, y as nat, c as nat]
    case DrawRect(m, x, y, w, h, c) => [m as nat, x as nat, y as nat, w as nat, h as nat, c as nat]
  }

  /**
   * The struct declarations agree with the schema table: one value per
   * declared field, each within the range of the field's C type.
   */
  lemma FieldValuesMatchSchema(p: Payload)
    ensures |FieldValues(p)| == |Schema(PayloadOpcode(p))|
    ensures forall i | 0 <= i < |FieldValues(p)| ::
      FieldValues(p)[i] < Schema(PayloadOpcode(p))[i].container.Limit()
  {
  }

  /** Every field value is representable in its declared width. */
  predicate FitsDeclaredWidths(p: Payload)
  {
    var vs, fs := FieldValues(p), Schema(PayloadOpcode(p));
    |vs| == |fs| && forall i | 0 <= i < |vs| :: vs[i] < Pow2(fs[i].width)
  }

  /** A value fitting any field declared 2 bits wide is in 0..3. */
  lemma TwoBitFieldInRange(p: Payload, i: nat)
    requires FitsDeclaredWidths(p)
    requires i < |Schema(PayloadOpcode(p))| && Schema(PayloadOpcode(p))[i].width == 2
    ensures FieldValues(p)[i] <= 3
  {
    assert Pow2(2) == 4;
  }

  /** `quadrant` and every `drawMode` are 2-bit fields: a payload that fits its widths has them in 0..3. */
  lemma TwoBitFieldsBounded(p: Payload)
    requires FitsDeclaredWidths(p)
    ensures p.SetZLevelQuad? ==> p.quadrant <= 3
    ensures p.DrawZOrderPixels? || p.DrawXYPixel? || p.DrawRect? ==> p.drawMode <= 3
  {
    if p.SetZLevelQuad? || p.DrawZOrderPixels? || p.DrawXYPixel? || p.DrawRect? {
      TwoBitFieldInRange(p, 0);
    }
  }
}
