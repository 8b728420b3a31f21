/** The browser objects the recorder talks to, reduced to the values the
    client code inspects: bytes and Blobs, the refusal names of
    getUserMedia, and the channel data decodeAudioData produces. */
module Browser {

  /** One byte of an ArrayBuffer. */
  type Byte = b: int | 0 <= b < 0x100

  /** A Blob: its bytes (size is their number) and its MIME type. */
  datatype Blob = Blob(bytes: seq<Byte>, mimeType: string) {
    function Size(): nat {
      |bytes|
    }
  }

  /** What navigator.mediaDevices.getUserMedia settles with: a live
      stream, or a rejection carrying its DOMException name
      ("NotAllowedError", "NotFoundError", ...). */
  datatype Acquisition = Granted | Refused(errorName: string)

  /** An AudioBuffer: sample rate, one Float32Array per channel and the
      common frame count. */
  datatype Pcm = Pcm(sampleRate: nat, channels: seq<seq<real>>, length: nat)

  /** Every channel of an AudioBuffer holds exactly `length` samples. */
  predicate EqualChannels(p: Pcm) {
    forall c :: 0 <= c < |p.channels| ==> |p.channels[c]| == p.length
  }

  type PcmBuffer = p: Pcm | EqualChannels(p) witness Pcm(16000, [], 0)

  /** What AudioContext.decodeAudioData settles with. */
  datatype Decoded = Decoded(pcm: PcmBuffer) | DecodeError
}
