/**
 * Inline query results built by editing a key/value map in place.
 * Modelled on telegram/inline_query.go (the iqr type and its constructors).
 */
module InlineQuery {
  import opened TelegramHelper

  /** What MarshalJSON leaves in the map: the id and the type, overriding any same-named keys. */
  function Marshalled(d: Fields, id: string, resType: string): (r: Fields)
    ensures r.Keys == d.Keys + {"id", "type"}
    ensures r["id"] == Str(id) && r["type"] == Str(resType)
    ensures forall k :: k in d && k != "id" && k != "type" ==> r[k] == d[k]
  {
    d["id" := Str(id)]["type" := Str(resType)]
  }

  /** Marshalling twice leaves the map as marshalling once does. */
  lemma MarshalledIdempotent(d: Fields, id: string, resType: string)
    ensures Marshalled(Marshalled(d, id, resType), id, resType) == Marshalled(d, id, resType)
  {
  }

  /**
   * What graphics(prefix, u, w, h) does: `<prefix>_url` is always written,
   * `<prefix>_width` only for a positive width, `<prefix>_height` only for a
   * positive height; no other key changes.
   */
  function WithGraphics(d: Fields, prefix: string, u: string, w: int, h: int): (r: Fields)
    ensures prefix + "_url" in r && r[prefix + "_url"] == Str(u)
    ensures prefix + "_width" in r <==> w > 0 || prefix + "_width" in d
    ensures w > 0 ==> r[prefix + "_width"] == Int(w)
    ensures w <= 0 && prefix + "_width" in d ==> r[prefix + "_width"] == d[prefix + "_width"]
    ensures prefix + "_height" in r <==> h > 0 || prefix + "_height" in d
    ensures h > 0 ==> r[prefix + "_height"] == Int(h)
    ensures h <= 0 && prefix + "_height" in d ==> r[prefix + "_height"] == d[prefix + "_height"]
    ensures forall k :: k != prefix + "_url" && k != prefix + "_width" && k != prefix + "_height" ==>
              (k in r <==> k in d) && (k in d ==> r[k] == d[k])
  {
    assert prefix + "_width" != prefix + "_url" && prefix + "_height" != prefix + "_url";
    assert prefix + "_width" != prefix + "_height" by {
      assert |prefix + "_width"| != |prefix + "_height"|;
    }
    var withUrl := d[prefix + "_url" := Str(u)];
    var withWidth := if w > 0 then withUrl[prefix + "_width" := Int(w)] else withUrl;
    if h > 0 then withWidth[prefix + "_height" := Int(h)] else withWidth
  }

  /** An inline query result: a fixed id and type, and a map of optional fields. */
  class Iqr {
    const id: string
    const resType: string
    var data: Fields

    constructor (id: string, resType: string, data: Fields)
      ensures this.id == id && this.resType == resType && this.data == data
    {
      this.id := id;
      this.resType := resType;
      this.data := data;
    }

    /** Type: the constructor's result type, which no setter can change. */
    function Type(): (t: string)
      ensures t == resType
    {
      resType
    }

    /** ID: the constructor's id, which no setter can change. */
    function ID(): (i: string)
      ensures i == id
    {
      id
    }

    /** MarshalJSON writes id and type into the map; the JSON bytes are not modelled. */
    method MarshalJSON()
      modifies this
      ensures data == Marshalled(old(data), id, resType)
    {
      data := data["id" := Str(id)];
      data := data["type" := Str(resType)];
    }

    /** ParseMode stores the mode even when it is empty (AsText). */
    method ParseMode(mode: string)
      modifies this
      ensures data == old(data)["parse_mode" := Str(mode)]
    {
      data := data["parse_mode" := Str(mode)];
    }

    method DisableWebPreview()
      modifies this
      ensures data == old(data)["disable_web_page_preview" := Bool(true)]
    {
      data := data["disable_web_page_preview" := Bool(true)];
    }

    method URL(u: string)
      modifies this
      ensures data == old(data)["url" := Str(u)]
    {
      data := data["url" := Str(u)];
    }

    method HideURL()
      modifies this
      ensures data == old(data)["hide_url" := Bool(true)]
    {
      data := data["hide_url" := Bool(true)];
    }

    method Description(desc: string)
      modifies this
      ensures data == old(data)["description" := Str(desc)]
    {
      data := data["description" := Str(desc)];
    }

    method Title(t: string)
      modifies this
      ensures data == old(data)["title" := Str(t)]
    {
      data := data["title" := Str(t)];
    }

    method Graphics(prefix: string, u: string, w: int, h: int)
      modifies this
      ensures data == WithGraphics(old(data), prefix, u, w, h)
    {
      data := data[prefix + "_url" := Str(u)];
      if w > 0 {
        data := data[prefix + "_width" := Int(w)];
      }
      if h > 0 {
        data := data[prefix + "_height" := Int(h)];
      }
    }

    method Thumb(thumb: string, width: int, height: int)
      modifies this
      ensures data == WithGraphics(old(data), "thumb", thumb, width, height)
    {
      Graphics("thumb", thumb, width, height);
    }

    method Photo(photo: string, width: int, height: int)
      modifies this
      ensures data == WithGraphics(old(data), "photo", photo, width, height)
    {
      Graphics("photo", photo, width, height);
    }

    method Gif(gif: string, width: int, height: int)
      modifies this
      ensures data == WithGraphics(old(data), "gif", gif, width, height)
    {
      Graphics("gif", gif, width, height);
    }

    method Mpeg4(mpeg4: string, width: int, height: int)
      modifies this
      ensures data == WithGraphics(old(data), "mpeg4", mpeg4, width, height)
    {
      Graphics("mpeg4", mpeg4, width, height);
    }

    /** Video also records a positive duration. */
    method Video(video: string, width: int, height: int, duration: int)
      modifies this
      ensures var g := WithGraphics(old(data), "video", video, width, height);
              data == if duration > 0 then g["video_duration" := Int(duration)] else g
    {
      Graphics("video", video, width, height);
      if duration > 0 {
        data := data["video_duration" := Int(duration)];
      }
    }

    method Caption(c: string)
      modifies this
      ensures data == old(data)["caption" := Str(c)]
    {
      data := data["caption" := Str(c)];
    }

    method Message(m: string)
      modifies this
      ensures data == old(data)["message_text" := Str(m)]
    {
      data := data["message_text" := Str(m)];
    }
  }

  method NewArticleResult(id: string, title: string, message: string) returns (r: Iqr)
    ensures fresh(r) && r.ID() == id && r.Type() == "article"
    ensures r.data == map["title" := Str(title), "message_text" := Str(message)]
  {
    r := new Iqr(id, "article", map["title" := Str(title), "message_text" := Str(message)]);
  }

  method NewPhotoResult(id: string, photo: string, thumb: string) returns (r: Iqr)
    ensures fresh(r) && r.ID() == id && r.Type() == "photo"
    ensures r.data == map["photo_url" := Str(photo), "thumb_url" := Str(thumb)]
  {
    r := new Iqr(id, "photo", map["photo_url" := Str(photo), "thumb_url" := Str(thumb)]);
  }

  method NewGifResult(id: string, gif: string, thumb: string) returns (r: Iqr)
    ensures fresh(r) && r.ID() == id && r.Type() == "gif"
    ensures r.data == map["gif_url" := Str(gif), "thumb_url" := Str(thumb)]
  {
    r := new Iqr(id, "gif", map["gif_url" := Str(gif), "thumb_url" := Str(thumb)]);
  }

  method NewMpeg4Result(id: string, mpeg4: string, thumb: string) returns (r: Iqr)
    ensures fresh(r) && r.ID() == id && r.Type() == "mpeg4_gif"
    ensures r.data == map["mpeg4_url" := Str(mpeg4), "thumb_url" := Str(thumb)]
  {
    r := new Iqr(id, "mpeg4_gif", map["mpeg4_url" := Str(mpeg4), "thumb_url" := Str(thumb)]);
  }

  method NewVideoResult(id: string, video: string, thumb: string) returns (r: Iqr)
    ensures fresh(r) && r.ID() == id && r.Type() == "video"
    ensures r.data == map["video_url" := Str(video), "thumb_url" := Str(thumb)]
  {
    r := new Iqr(id, "video", map["video_url" := Str(video), "thumb_url" := Str(thumb)]);
  }
}
