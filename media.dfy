/**
 * The media classification at the head of handle_file (bot.py:216-256): the
 * first media slot of the message that is present, in a fixed order, decides
 * the kind of the stored file and which of its fields are recorded.
 */
module Media {
  import opened Wrappers
  import opened Telegram

  datatype MediaKind = Document | Photo | Video | Audio | Voice | VideoNote | Animation | Sticker

  /** The order in which the if/elif chain tests the slots. */
  const Priority: seq<MediaKind> := [Document, Photo, Video, Audio, Voice, VideoNote, Animation, Sticker]

  /** The position of a kind in Priority. */
  function Rank(k: MediaKind): (i: nat)
    ensures i < |Priority| && Priority[i] == k
  {
    match k
    case Document => 0
    case Photo => 1
    case Video => 2
    case Audio => 3
    case Voice => 4
    case VideoNote => 5
    case Animation => 6
    case Sticker => 7
  }

  /** The object the handler reads for a kind; for a photo, the largest size (photo[-1]). */
  function Slot(m: Message, k: MediaKind): Option<Attachment>
  {
    match k
    case Document => m.document
    case Photo => if |m.photo| > 0 then Some(m.photo[|m.photo| - 1]) else None
    case Video => m.video
    case Audio => m.audio
    case Voice => m.voice
    case VideoNote => m.videoNote
    case Animation => m.animation
    case Sticker => m.sticker
  }

  /** The kinds whose file_name the handler records; for the others it stays None. */
  predicate CarriesFileName(k: MediaKind)
  {
    k == Document || k == Video || k == Audio || k == Animation
  }

  /** What handle_file extracts: file_type, file_id, file_name, file_size. */
  datatype Media = Media(kind: MediaKind, fileId: string, fileName: Option<string>, fileSize: Option<int>)

  /** The fields handle_file keeps of the chosen object; file_name only for the kinds that carry one. */
  function Describe(k: MediaKind, a: Attachment): Media
  {
    Media(k, a.fileId, if CarriesFileName(k) then a.fileName else None, a.fileSize)
  }

  /** The if/elif chain of bot.py:221-256; None when the message carries no media. */
  function Classify(m: Message): (r: Option<Media>)
    ensures r.Some? ==> Slot(m, r.value.kind).Some? && r.value == Describe(r.value.kind, Slot(m, r.value.kind).value)
    ensures r.Some? ==> forall j :: 0 <= j < Rank(r.value.kind) ==> Slot(m, Priority[j]).None?
    ensures r.None? <==> forall k: MediaKind :: Slot(m, k).None?
  {
    if m.document.Some? then Some(Describe(Document, m.document.value))
    else if |m.photo| > 0 then Some(Describe(Photo, m.photo[|m.photo| - 1]))
    else if m.video.Some? then Some(Describe(Video, m.video.value))
    else if m.audio.Some? then Some(Describe(Audio, m.audio.value))
    else if m.voice.Some? then Some(Describe(Voice, m.voice.value))
    else if m.videoNote.Some? then Some(Describe(VideoNote, m.videoNote.value))
    else if m.animation.Some? then Some(Describe(Animation, m.animation.value))
    else if m.sticker.Some? then Some(Describe(Sticker, m.sticker.value))
    else None
  }

  /** The chain picks the first present slot in Priority, so a lower-ranked slot never wins. */
  lemma ClassifyPrefersEarlier(m: Message, k: MediaKind)
    requires Slot(m, k).Some?
    ensures Classify(m).Some? && Rank(Classify(m).value.kind) <= Rank(k)
  {
  }
}
