/** Native-side values of the VST 2.x boundary: integer widths, pointers,
    rectangles, buffer capacities and the writes the dispatcher makes
    through host-supplied pointers. */
module Native {

  datatype Option<+T> = None | Some(value: T)

  /** One byte of a native buffer. */
  newtype byte = x: int | 0 <= x < 256

  /** A native pointer as the host sees it: null or an address. */
  datatype Ptr = Null | At(addr: nat)

  /** Editor bounds, as the plugin reports them. */
  datatype Rect = Rect(top: int, left: int, bottom: int, right: int)

  const TwoTo32: int := 0x1_0000_0000
  const Int32Min: int := -0x8000_0000
  const Int32Max: int := 0x7FFF_FFFF

  /** The conversion of a native-width integer to a 32-bit signed integer:
      the low 32 bits, read as two's complement. */
  function ToInt32(v: int): (r: int)
    ensures Int32Min <= r <= Int32Max
    ensures (r - v) % TwoTo32 == 0
    ensures Int32Min <= v <= Int32Max ==> r == v
  {
    var m := v % TwoTo32;
    if m > Int32Max then m - TwoTo32 else m
  }

  /** The conversion of a 32-bit integer to an unsigned byte: the low 8 bits. */
  function ToByte(v: int): (r: int)
    ensures 0 <= r < 256
    ensures (r - v) % 256 == 0
    ensures 0 <= v < 256 ==> r == v
  {
    v % 256
  }

  /** The conversion of a float to an integer, which truncates toward zero. */
  function TruncateTowardZero(x: real): (r: int)
    ensures 0.0 <= x ==> 0 <= r && r as real <= x < r as real + 1.0
    ensures x < 0.0 ==> r <= 0 && r as real - 1.0 < x <= r as real
  {
    if 0.0 <= x then x.Floor else -((-x).Floor)
  }

  // Capacities of the host's string buffers (VST 2.4 ABI), counting the terminator.
  const MaxProgNameLen: nat := 24
  const MaxParamStrLen: nat := 8
  const MaxEffectNameLen: nat := 32
  const MaxVendorStrLen: nat := 64
  const MaxProductStrLen: nat := 64
  const MaxNameLen: nat := 64
  /** The buffer size the legacy error-text query assumes. */
  const ErrorTextLen: nat := 256

  /** Which dispatch argument a pointer is written through. */
  datatype Target = ThroughPtr | ThroughValue

  /** Native structs that the value transcoder fills in the host's memory. */
  datatype StructKind =
    | PinProperties
    | ParameterProperties
    | MidiProgramName
    | MidiProgramCategory

  /** A write the dispatcher makes into memory the host owns. */
  datatype Write =
    | PointerWrite(target: Target, p: Ptr)              // *(void**)target = p
    | TextWrite(text: Option<string>, capacity: nat)     // string copied, truncated to capacity
    | StructWrite(kind: StructKind)                      // struct at ptr filled in

  /** The value a sequence of writes leaves in the pointer slot `t`: the
      last pointer written to it, or `None` when none of them writes it. */
  function FinalPointer(ws: seq<Write>, t: Target): (r: Option<Ptr>)
    ensures r.None? <==> forall i :: 0 <= i < |ws| ==> !(ws[i].PointerWrite? && ws[i].target == t)
    ensures r.Some? ==> exists i :: (
      0 <= i < |ws| && ws[i] == PointerWrite(t, r.value) &&
      forall j :: i < j < |ws| ==> !(ws[j].PointerWrite? && ws[j].target == t))
  {
    if ws == [] then None
    else
      var last := ws[|ws| - 1];
      if last.PointerWrite? && last.target == t then Some(last.p)
      else
        var init := ws[..|ws| - 1];
        assert forall j :: 0 <= j < |init| ==> init[j] == ws[j];
        FinalPointer(init, t)
  }
}
