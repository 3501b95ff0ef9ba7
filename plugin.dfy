/**
 * The payload naming a plug-in server: its name, flags, and the opaque
 * parameter bytes that fill the rest of the declared length.
 */
module Plugin {
  import opened Primitives

  datatype PluginServerNameAndData = PluginServerNameAndData(serverName: seq<u8>, flags: u16, parameters: seq<u8>)

  /**
   * An aligned NUL-terminated server name and a 16-bit flags word; the
   * parameter count is the declared length minus the bytes read so far, an
   * unsigned subtraction that panics when the header overran the length.
   */
  function DecodePluginServerNameAndData(data: seq<u8>, pos: nat, length: u32)
    : (r: Result<Decoded<PluginServerNameAndData>>)
    ensures r.Ok? <==>
      && AlignedNullString(data, pos).Ok?
      && AlignedNullString(data, pos).value.next + 2 <= pos + length <= |data|
    ensures r.Ok? ==> r.value.next == pos + length <= |data|
    ensures r.Ok? ==> AlignedNullString(data, pos).Ok? && AlignedNullString(data, pos).value.next + 2 <= pos + length
    ensures r.Ok? ==>
      var header := AlignedNullString(data, pos).value;
      && r.value.value.serverName == header.value
      && r.value.value.flags == BE16(data, header.next)
      && r.value.value.parameters == data[header.next + 2..pos + length]
    ensures r.Err? && r.error.kind == ArithmeticPanic ==>
      AlignedNullString(data, pos).Ok? && AlignedNullString(data, pos).value.next + 2 > pos + length
    ensures AlignedNullString(data, pos).Ok? && pos + length < AlignedNullString(data, pos).value.next + 2 <= |data| ==>
      r == Err(Error(ArithmeticPanic, AlignedNullString(data, pos).value.next + 2))
  {
    var name :- AlignedNullString(data, pos);
    var flags :- ReadU16(data, name.next);
    var consumed := flags.next - pos;
    if consumed > length then Err(Error(ArithmeticPanic, flags.next))
    else
      var parameters :- ReadBytes(length - consumed, data, flags.next);
      Ok(Decoded(PluginServerNameAndData(name.value, flags.value, parameters.value), parameters.next))
  }
}
