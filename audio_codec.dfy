/** The audio helpers at the top of pages/VoiceAssistantPage.tsx: `encode` and
    `decode` between bytes and base64 (through a "binary string" whose characters
    are the byte values), and `decodeAudioData`, which reads the bytes as
    little-endian 16-bit PCM and de-interleaves them into channels of samples in
    [-1, 1). The browser's `btoa`/`atob` are passed in as functions, `atob` as a
    partial one. */
module AudioCodec {
  import opened Wrappers

  /** A `Uint8Array` element. */
  type Byte = b: int | 0 <= b < 256

  /** Every character is a single byte value, as `btoa` demands and `atob` yields. */
  predicate IsBinaryString(s: string)
  {
    forall i :: 0 <= i < |s| ==> s[i] as int < 256
  }

  /** `String.fromCharCode(bytes[0]) + String.fromCharCode(bytes[1]) + ...` */
  function BinaryString(bytes: seq<Byte>): (s: string)
    ensures |s| == |bytes| && IsBinaryString(s)
    ensures forall i :: 0 <= i < |s| ==> s[i] as int == bytes[i]
  {
    seq(|bytes|, i requires 0 <= i < |bytes| => bytes[i] as char)
  }

  /** `bytes[i] = s.charCodeAt(i)` for every `i`: a `Uint8Array` keeps the value
      modulo 256. */
  function CharCodeBytes(s: string): (bytes: seq<Byte>)
    ensures |bytes| == |s|
    ensures forall i :: 0 <= i < |s| ==> bytes[i] == s[i] as int % 256
  {
    seq(|s|, i requires 0 <= i < |s| => s[i] as int % 256)
  }

  /** Reading the char codes of a binary string gives the bytes back. */
  lemma BytesRoundTrip(bytes: seq<Byte>)
    ensures CharCodeBytes(BinaryString(bytes)) == bytes
  {
    var s := BinaryString(bytes);
    assert forall i :: 0 <= i < |bytes| ==> CharCodeBytes(s)[i] == bytes[i];
  }

  /** And writing the bytes of a binary string gives the string back. */
  lemma BinaryStringRoundTrip(s: string)
    requires IsBinaryString(s)
    ensures BinaryString(CharCodeBytes(s)) == s
  {
    var b := CharCodeBytes(s);
    forall i | 0 <= i < |s|
      ensures BinaryString(b)[i] == s[i]
    {
      assert BinaryString(b)[i] as int == s[i] as int;
    }
  }

  /** `encode`: the loop that builds the binary string, then `btoa`. */
  method Encode(bytes: array<Byte>, btoa: string -> string) returns (base64: string)
    ensures base64 == btoa(BinaryString(bytes[..]))
  {
    var binary := "";
    var i := 0;
    while i < bytes.Length
      invariant 0 <= i <= bytes.Length
      invariant binary == BinaryString(bytes[..i])
    {
      binary := binary + [bytes[i] as char];
      i := i + 1;
      assert BinaryString(bytes[..i]) == BinaryString(bytes[..i - 1]) + [bytes[i - 1] as char];
    }
    assert bytes[..] == bytes[..bytes.Length];
    base64 := btoa(binary);
  }

  /** `decode`: `atob` (None where it throws, on text that is not base64), then
      the loop that copies the char codes into a fresh `Uint8Array` of the same
      length. */
  method Decode(base64: string, atob: string -> Option<string>) returns (r: Result<array<Byte>, AudioError>)
    ensures r.Failure? <==> atob(base64).None?
    ensures r.Failure? ==> r.error == InvalidCharacterError
    ensures r.Success? ==> fresh(r.value) && r.value[..] == CharCodeBytes(atob(base64).value)
  {
    var decoded := atob(base64);
    if decoded.None? {
      return Failure(InvalidCharacterError);
    }
    var binary := decoded.value;
    var bytes := new Byte[|binary|];
    var i := 0;
    while i < |binary|
      invariant 0 <= i <= |binary|
      invariant forall j :: 0 <= j < i ==> bytes[j] == binary[j] as int % 256
    {
      bytes[i] := binary[i] as int % 256;
      i := i + 1;
    }
    return Success(bytes);
  }

  /** With `atob` undoing `btoa` on binary strings (RFC 4648 section 4 base64),
      decoding what `encode` produced succeeds and gives back the same bytes, in
      the same order. */
  lemma DecodeInvertsEncode(bytes: seq<Byte>, btoa: string -> string, atob: string -> Option<string>)
    requires forall s :: IsBinaryString(s) ==> atob(btoa(s)) == Some(s)
    ensures atob(btoa(BinaryString(bytes))).Some?
    ensures CharCodeBytes(atob(btoa(BinaryString(bytes))).value) == bytes
  {
    BytesRoundTrip(bytes);
  }

  /** Element `k` of an `Int16Array` laid over `data`: bytes `2k` and `2k + 1`,
      little-endian, as a two's-complement signed value. */
  function Int16At(data: seq<Byte>, k: nat): (v: int)
    requires 2 * k + 1 < |data|
    ensures -32768 <= v < 32768
    ensures (v + 65536) % 65536 == data[2 * k] as int + 256 * data[2 * k + 1] as int
  {
    var raw := data[2 * k] as int + 256 * data[2 * k + 1] as int;
    if raw >= 32768 then raw - 65536 else raw
  }

  /** The little-endian bytes of a 16-bit value: the layout `Int16At` reads. */
  function Int16Bytes(v: int): (bs: seq<Byte>)
    requires -32768 <= v < 32768
    ensures |bs| == 2
  {
    var u := if v < 0 then v + 65536 else v;
    [u % 256, u / 256]
  }

  lemma Int16RoundTrip(v: int)
    requires -32768 <= v < 32768
    ensures Int16At(Int16Bytes(v), 0) == v
  {
    var u := if v < 0 then v + 65536 else v;
    assert u % 256 + 256 * (u / 256) == u;
  }

  /** One channel value `dataInt16[k] / 32768.0`: always in [-1, 1). */
  function Sample(data: seq<Byte>, k: nat): (x: real)
    requires 2 * k + 1 < |data|
    ensures -1.0 <= x < 1.0
    ensures x * 32768.0 == Int16At(data, k) as real
  {
    Int16At(data, k) as real / 32768.0
  }

  /** What `new Int16Array(buffer)` and `ctx.createBuffer` throw. */
  datatype AudioError =
    | InvalidCharacterError  // `atob` was given text that is not base64
    | RangeError             // the byte length is odd
    | NotSupportedError      // no channels, or no frames

  /** The number of frames `dataInt16.length / numChannels`; the buffer's length is
      that quotient truncated, and the loop's writes beyond it are dropped. */
  function FrameCount(byteLength: nat, numChannels: nat): nat
    requires numChannels > 0
  {
    byteLength / 2 / numChannels
  }

  /** Channel `c`, frame `i` of the de-interleaved buffer: sample
      `i * numChannels + c`, which exists for every frame below `FrameCount`. */
  function ChannelValue(data: seq<Byte>, numChannels: nat, c: nat, i: nat): (x: real)
    requires numChannels > 0 && c < numChannels && i < FrameCount(|data|, numChannels)
    ensures 2 * (i * numChannels + c) + 1 < |data|
    ensures x == Sample(data, i * numChannels + c)
    ensures -1.0 <= x < 1.0
  {
    FrameInRange(|data| / 2, numChannels, FrameCount(|data|, numChannels), i, c);
    Sample(data, i * numChannels + c)
  }

  /** `decodeAudioData` (without the sample rate, which only sets the buffer's
      duration): a `numChannels` by `frameCount` buffer whose channel `c`, frame `i`
      holds sample `i * numChannels + c`. */
  method DecodeAudioData(data: array<Byte>, numChannels: nat) returns (r: Result<array2<real>, AudioError>)
    ensures data.Length % 2 == 1 ==> r == Failure(RangeError)
    ensures data.Length % 2 == 0 && (numChannels == 0 || FrameCount(data.Length, numChannels) == 0) ==>
              r == Failure(NotSupportedError)
    ensures data.Length % 2 == 0 && numChannels > 0 && FrameCount(data.Length, numChannels) > 0 ==>
              && r.Success? && fresh(r.value)
              && r.value.Length0 == numChannels
              && r.value.Length1 == FrameCount(data.Length, numChannels)
              && forall c, i :: 0 <= c < numChannels && 0 <= i < r.value.Length1 ==>
                   r.value[c, i] == ChannelValue(data[..], numChannels, c, i)
  {
    if data.Length % 2 == 1 {
      return Failure(RangeError);
    }
    if numChannels == 0 || FrameCount(data.Length, numChannels) == 0 {
      return Failure(NotSupportedError);
    }
    var d := data[..];
    var frameCount := FrameCount(data.Length, numChannels);
    var buffer := new real[numChannels, frameCount];
    var channel := 0;
    while channel < numChannels
      invariant 0 <= channel <= numChannels
      invariant forall c, i :: 0 <= c < channel && 0 <= i < frameCount ==>
                  buffer[c, i] == ChannelValue(d, numChannels, c, i)
    {
      var i := 0;
      while i < frameCount
        invariant 0 <= i <= frameCount
        invariant forall c, j :: 0 <= c < channel && 0 <= j < frameCount ==>
                    buffer[c, j] == ChannelValue(d, numChannels, c, j)
        invariant forall j :: 0 <= j < i ==> buffer[channel, j] == ChannelValue(d, numChannels, channel, j)
      {
        buffer[channel, i] := ChannelValue(d, numChannels, channel, i);
        i := i + 1;
      }
      channel := channel + 1;
    }
    return Success(buffer);
  }

  /** Sample `i * numChannels + c` of frame `i < frameCount` exists. */
  lemma FrameInRange(samples: nat, numChannels: nat, frameCount: nat, i: nat, c: nat)
    requires numChannels > 0 && frameCount == samples / numChannels
    requires i < frameCount && c < numChannels
    ensures i * numChannels + c < samples
  {
    assert (i + 1) * numChannels <= frameCount * numChannels;
    assert frameCount * numChannels <= samples;
  }
}
