/** File checks and the OCR / transcription calls of the chat input
    (src/composables/useMultimodalInput.ts). */
module Multimodal {
  import opened Strings

  /** What the browser reports about a chosen file. */
  datatype File = File(name: string, mimeType: string, size: int)

  /** A check passes, or fails with the message shown to the user. */
  datatype Verdict = Accepted | Rejected(message: string)

  const ImageTypes: seq<string> := ["image/jpeg", "image/jpg", "image/png", "image/webp"]
  const ImageMaxSize := 10 * 1024 * 1024
  const ImageTypeError := "只支持 jpg/jpeg/png/webp 格式的图片"
  const ImageSizeError := "图片大小不能超过 10MB"

  const AudioTypes: seq<string> := ["audio/mpeg", "audio/mp3", "audio/wav", "audio/x-m4a", "audio/amr"]
  const AudioExtensions: seq<string> := [".mp3", ".wav", ".m4a", ".amr"]
  const AudioMaxSize := 5 * 1024 * 1024
  const AudioTypeError := "只支持 mp3/wav/m4a/amr 格式的音频"
  const AudioSizeError := "音频大小不能超过 5MB"

  /** The type is checked first, so a file with a bad type and a bad size
      only gets the type message. */
  function ValidateImage(f: File): (r: Verdict)
    ensures r == Accepted <==> f.mimeType in ImageTypes && f.size <= ImageMaxSize
    ensures f.mimeType !in ImageTypes ==> r == Rejected(ImageTypeError)
    ensures f.mimeType in ImageTypes && f.size > ImageMaxSize ==> r == Rejected(ImageSizeError)
  {
    if f.mimeType !in ImageTypes then Rejected(ImageTypeError)
    else if f.size > ImageMaxSize then Rejected(ImageSizeError)
    else Accepted
  }

  /** The name, lower-cased, ends in one of the audio extensions. */
  predicate HasAudioExtension(name: string) {
    exists ext :: ext in AudioExtensions && EndsWith(LowerAscii(name), ext)
  }

  /** A known audio type, or failing that a known extension; then the size. */
  function ValidateAudio(f: File): (r: Verdict)
    ensures r == Accepted <==> (f.mimeType in AudioTypes || HasAudioExtension(f.name)) && f.size <= AudioMaxSize
    ensures !(f.mimeType in AudioTypes || HasAudioExtension(f.name)) ==> r == Rejected(AudioTypeError)
    ensures (f.mimeType in AudioTypes || HasAudioExtension(f.name)) && f.size > AudioMaxSize ==>
              r == Rejected(AudioSizeError)
  {
    var lower := LowerAscii(f.name);
    var known := f.mimeType in AudioTypes || EndsWithAny(lower, AudioExtensions);
    EndsWithAnyIff(lower, AudioExtensions);
    if !known then Rejected(AudioTypeError)
    else if f.size > AudioMaxSize then Rejected(AudioSizeError)
    else Accepted
  }

  /** `exts.some(ext => s.endsWith(ext))`. */
  function EndsWithAny(s: string, exts: seq<string>): bool {
    exts != [] && (EndsWith(s, exts[0]) || EndsWithAny(s, exts[1..]))
  }

  lemma {:induction false} EndsWithAnyIff(s: string, exts: seq<string>)
    ensures EndsWithAny(s, exts) <==> exists ext :: ext in exts && EndsWith(s, ext)
  {
    if exts != [] {
      EndsWithAnyIff(s, exts[1..]);
      assert forall ext :: ext in exts <==> ext == exts[0] || ext in exts[1..];
    }
  }

  /** A `.MP3` file with an unknown type still passes the type check,
      because the name is lower-cased first. */
  lemma UpperCaseExtensionAccepted()
    ensures ValidateAudio(File("SONG.MP3", "", 100)) == Accepted
  {
    var lower := LowerAscii("SONG.MP3");
    assert lower == "song.mp3";
    assert EndsWith(lower, ".mp3");
  }

  /** What the OCR or transcription endpoint did. */
  datatype Reply = Replied(code: int, data: string) | Threw

  class MultimodalInput {
    var ocrLoading: bool
    var audioLoading: bool

    constructor ()
      ensures !ocrLoading && !audioLoading
    {
      ocrLoading := false;
      audioLoading := false;
    }

    /** `runOcr`: `''` without a call when the image is rejected; otherwise
        the call is made with the loading flag up, and the recognised text
        comes back only for code 200. After a call the flag is down.
        `loadingDuringCall` is the flag as the call saw it. */
    method RunOcr(f: File, reply: Reply) returns (text: string, called: bool, loadingDuringCall: bool)
      modifies this
      ensures called <==> ValidateImage(f) == Accepted
      ensures called ==> loadingDuringCall
      ensures audioLoading == old(audioLoading) && (called ==> !ocrLoading)
      ensures !called ==> text == [] && ocrLoading == old(ocrLoading)
      ensures called ==> text == (if reply.Replied? && reply.code == 200 then reply.data else [])
    {
      if ValidateImage(f) != Accepted {
        return [], false, ocrLoading;
      }
      ocrLoading := true;
      called, loadingDuringCall := true, ocrLoading;
      text := if reply.Replied? && reply.code == 200 then reply.data else [];
      ocrLoading := false;
    }

    /** `runAudioTranscribe`, the same shape with the audio check and flag. */
    method RunAudioTranscribe(f: File, reply: Reply) returns (text: string, called: bool, loadingDuringCall: bool)
      modifies this
      ensures called <==> ValidateAudio(f) == Accepted
      ensures called ==> loadingDuringCall
      ensures ocrLoading == old(ocrLoading) && (called ==> !audioLoading)
      ensures !called ==> text == [] && audioLoading == old(audioLoading)
      ensures called ==> text == (if reply.Replied? && reply.code == 200 then reply.data else [])
    {
      if ValidateAudio(f) != Accepted {
        return [], false, audioLoading;
      }
      audioLoading := true;
      called, loadingDuringCall := true, audioLoading;
      text := if reply.Replied? && reply.code == 200 then reply.data else [];
      audioLoading := false;
    }
  }
}
