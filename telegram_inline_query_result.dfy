/**
 * Input message contents and the result-type fix-up of inline query results.
 * Modelled on telegram/inline_query_result.go.
 */
module InlineQueryResult {
  import TelegramTypes
  import opened TelegramHelper

  /**
   * A *InputMessageContent: a pointer to a map variable. Every Set* method
   * points it at a brand-new map, so nothing stored before survives and
   * other holders of the old map do not see the change.
   */
  class InputMessageContent {
    var content: JsonMap

    constructor (init: JsonMap)
      ensures content == init
    {
      content := init;
    }

    /** SetText: message_text, plus parse_mode when non-empty, plus disable_web_preview when set. */
    method SetText(text: string, mode: string, noPreview: bool)
      modifies this
      ensures fresh(content)
      ensures content.entries.Keys ==
                {"message_text"} + (if mode != "" then {"parse_mode"} else {})
                                 + (if noPreview then {"disable_web_preview"} else {})
      ensures content.entries["message_text"] == Str(text)
      ensures mode != "" ==> content.entries["parse_mode"] == Str(mode)
      ensures noPreview ==> content.entries["disable_web_preview"] == Bool(true)
    {
      content := new JsonMap(map["message_text" := Str(text)]);
      MapStr(content, "parse_mode", mode);
      MapBool(content, "disable_web_preview", noPreview);
    }

    /** SetLocation: exactly the two coordinates. */
    method SetLocation(lat: TelegramTypes.Float64, lng: TelegramTypes.Float64)
      modifies this
      ensures fresh(content)
      ensures content.entries == map["latitude" := Float(lat), "longitude" := Float(lng)]
    {
      content := new JsonMap(map["latitude" := Float(lat), "longitude" := Float(lng)]);
    }

    /** SetVenue: coordinates, title and address, plus foursquare_id when non-empty. */
    method SetVenue(lat: TelegramTypes.Float64, lng: TelegramTypes.Float64, title: string, address: string, foursq: string)
      modifies this
      ensures fresh(content)
      ensures content.entries.Keys ==
                {"latitude", "longitude", "title", "address"} + (if foursq != "" then {"foursquare_id"} else {})
      ensures content.entries["latitude"] == Float(lat) && content.entries["longitude"] == Float(lng)
      ensures content.entries["title"] == Str(title) && content.entries["address"] == Str(address)
      ensures foursq != "" ==> content.entries["foursquare_id"] == Str(foursq)
    {
      content := new JsonMap(map["latitude" := Float(lat), "longitude" := Float(lng),
                                 "title" := Str(title), "address" := Str(address)]);
      MapStr(content, "foursquare_id", foursq);
    }

    /** SetContact: phone number and first name, plus last_name when non-empty. */
    method SetContact(phone: string, firstName: string, lastName: string)
      modifies this
      ensures fresh(content)
      ensures content.entries.Keys ==
                {"phone_number", "first_name"} + (if lastName != "" then {"last_name"} else {})
      ensures content.entries["phone_number"] == Str(phone)
      ensures content.entries["first_name"] == Str(firstName)
      ensures lastName != "" ==> content.entries["last_name"] == Str(lastName)
    {
      content := new JsonMap(map["phone_number" := Str(phone), "first_name" := Str(firstName)]);
      MapStr(content, "last_name", lastName);
    }
  }

  /** The fields shared by every inline query result. */
  class AbstractInlineQueryResult {
    var resultType: string
    var id: string
    var title: string
    var caption: string
    var description: string

    constructor (id: string)
      ensures this.id == id && resultType == "" && title == "" && caption == "" && description == ""
    {
      this.id := id;
      resultType, title, caption, description := "", "", "", "";
    }
  }

  /** The nineteen result structs, each embedding an AbstractInlineQueryResult. */
  datatype ResultKind =
    | Article | Photo | Gif | Mpeg4Gif | Video | Audio | Voice | Document
    | Location | Venue | Contact
    | CachedPhoto | CachedGif | CachedMpeg4Gif | CachedSticker | CachedDocument
    | CachedVideo | CachedVoice | CachedAudio

  /** The type string each struct's ForceType writes. */
  function TypeName(k: ResultKind): string
  {
    match k
    case Article => "article"
    case Photo => "photo"
    case Gif => "gif"
    case Mpeg4Gif => "mpeg4_gif"
    case Video => "video"
    case Audio => "audio"
    case Voice => "voice"
    case Document => "document"
    case Location => "location"
    case Venue => "venue"
    case Contact => "contact"
    case CachedPhoto => "photo"
    case CachedGif => "gif"
    case CachedMpeg4Gif => "mpeg4_gif"
    case CachedSticker => "sticker"
    case CachedDocument => "document"
    case CachedVideo => "video"
    case CachedVoice => "voice"
    case CachedAudio => "audio"
  }

  /** Cached results reuse the plain type names; only stickers have no plain counterpart. */
  lemma CachedKindsShareTypeNames()
    ensures TypeName(CachedPhoto) == TypeName(Photo)
    ensures TypeName(CachedGif) == TypeName(Gif)
    ensures TypeName(CachedMpeg4Gif) == TypeName(Mpeg4Gif)
    ensures TypeName(CachedDocument) == TypeName(Document)
    ensures TypeName(CachedVideo) == TypeName(Video)
    ensures TypeName(CachedVoice) == TypeName(Voice)
    ensures TypeName(CachedAudio) == TypeName(Audio)
    ensures forall k: ResultKind :: k != CachedSticker ==> TypeName(k) != "sticker"
  {
  }

  /**
   * ForceType of the struct of kind `k`: only the type field changes, so a
   * second call changes nothing.
   */
  method ForceType(k: ResultKind, r: AbstractInlineQueryResult)
    modifies r
    ensures r.resultType == TypeName(k)
    ensures r.id == old(r.id) && r.title == old(r.title)
    ensures r.caption == old(r.caption) && r.description == old(r.description)
  {
    r.resultType := TypeName(k);
  }
}
