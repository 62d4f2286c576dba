/** The project detail page of scripts/project-detail.js: the filename-to-id lookup, the
    localized-text fallback, the one-shot render of a project's detail record, and the
    thumbnail gallery with its lightbox. The fetched JSON and the current language are
    parameters. */
module ProjectDetail {
  import opened Common

  /** `path.split("/").pop()`: what follows the last '/', or the whole path when it has none. */
  function LastSegment(path: string): (r: string)
    ensures |r| <= |path| && r == path[|path| - |r|..]
    ensures '/' !in r
    ensures |r| < |path| ==> path[|path| - |r| - 1] == '/'
  {
    if path == [] then []
    else if path[|path| - 1] == '/' then []
    else LastSegment(path[..|path| - 1]) + [path[|path| - 1]]
  }

  /** The last segment of `dir/name` is `name`, whatever `dir` holds. */
  lemma {:induction false} LastSegmentOfJoin(dir: string, name: string)
    requires '/' !in name
    ensures LastSegment(dir + "/" + name) == name
  {
    var p := dir + "/" + name;
    if name != [] {
      var shorter := name[..|name| - 1];
      assert p[..|p| - 1] == dir + "/" + shorter;
      assert p[|p| - 1] == name[|name| - 1];
      LastSegmentOfJoin(dir, shorter);
      assert name == shorter + [name[|name| - 1]];
    }
  }

  /** A path with no '/' is its own last segment. */
  lemma {:induction false} LastSegmentOfName(name: string)
    requires '/' !in name
    ensures LastSegment(name) == name
  {
  }

  /** The seven detail pages and the record each one loads. */
  const PageIds: map<string, string> := map[
    "project-sten.html" := "sten",
    "project-m1911.html" := "m1911",
    "project-caitlyn.html" := "caitlyn",
    "project-2077manufacture.html" := "2077",
    "project-mech.html" := "mech",
    "project-stylizedmech.html" := "stylized",
    "project-junkratlauncher.html" := "junkrat"]

  /** The if/else chain on the page filename; `None` is the `projectId = null` that makes
      the loader return before fetching. */
  function PageProjectId(page: string): (r: Option<string>)
    ensures r == Get(PageIds, page)
  {
    if page == "project-sten.html" then Some("sten")
    else if page == "project-m1911.html" then Some("m1911")
    else if page == "project-caitlyn.html" then Some("caitlyn")
    else if page == "project-2077manufacture.html" then Some("2077")
    else if page == "project-mech.html" then Some("mech")
    else if page == "project-stylizedmech.html" then Some("stylized")
    else if page == "project-junkratlauncher.html" then Some("junkrat")
    else None
  }

  function ProjectIdFromPath(path: string): Option<string>
  {
    PageProjectId(LastSegment(path))
  }

  /** Any directory in front of a known page leads to that page's record. */
  lemma ProjectIdOfPagePath(dir: string, page: string)
    requires page in PageIds
    ensures ProjectIdFromPath(dir + "/" + page) == Some(PageIds[page])
  {
    LastSegmentOfJoin(dir, page);
  }

  /** A localized field of the detail JSON: language code to text. */
  type Text = map<string, string>

  /** `field[lang] || field.en`: the variant for `lang` when it is a non-empty string,
      otherwise the English one (`None` for `undefined`). */
  function Localize(t: Text, lang: string): (r: Option<string>)
    ensures lang in t && t[lang] != "" ==> r == Some(t[lang])
    ensures !(lang in t && t[lang] != "") ==> r == Get(t, "en")
  {
    if lang in t && t[lang] != "" then Some(t[lang]) else Get(t, "en")
  }

  /** In English the fallback never changes anything: the English text itself is shown. */
  lemma LocalizeEnglish(t: Text)
    ensures Localize(t, "en") == Get(t, "en")
  {
  }

  /** The text shown is always one of two variants: the chosen language's or English. */
  lemma LocalizeVariants(t: Text, lang: string)
    ensures Localize(t, lang).Some? ==>
              (lang in t && Localize(t, lang).value == t[lang]) ||
              ("en" in t && Localize(t, lang).value == t["en"])
    ensures Localize(t, lang).None? <==> (lang !in t || t[lang] == "") && "en" !in t
  {
  }

  datatype Image = Image(src: string, alt: string)

  /** The `description` object: an overview and an optional process paragraph. */
  datatype Description = Description(overview: Option<Text>, process: Option<Text>)

  /** One record of `data/project_details.json`. An empty `title`/`titleZh` stands for a falsy
      (missing or empty) string; `images` is `None` when the key is absent. */
  datatype Detail = Detail(
    title: string,
    titleZh: string,
    subtitle: Option<Text>,
    description: Option<Description>,
    specs: Option<seq<Text>>,
    images: Option<seq<Image>>)

  /** A text element: its `textContent` and its `data-en` / `data-zh` attributes, as the
      JavaScript values last written to them. */
  datatype Elem = Elem(text: Option<string>, dataEn: Option<string>, dataZh: Option<string>)

  datatype Thumb = Thumb(image: Image, active: bool)

  /** The parts of the detail page the loader writes. */
  datatype DetailView = DetailView(
    title: Elem,
    subtitle: Elem,
    overview: Elem,
    process: Elem,
    specs: seq<Elem>,
    mainImage: Image,
    thumbs: seq<Thumb>)

  /** An element showing a localized field: text by the fallback rule, both variants kept
      as attributes for the language switch. */
  function Shown(t: Text, lang: string): (e: Elem)
    ensures e.text == Localize(t, lang)
    ensures e.dataEn == Get(t, "en") && e.dataZh == Get(t, "zh")
  {
    Elem(Localize(t, lang), Get(t, "en"), Get(t, "zh"))
  }

  /** The generated thumbnail strip: one thumbnail per image, in order, only the first active. */
  function Thumbnails(images: seq<Image>): (r: seq<Thumb>)
    ensures |r| == |images|
    ensures forall k :: 0 <= k < |r| ==> r[k].image == images[k]
    ensures forall k :: 0 <= k < |r| ==> (r[k].active <==> k == 0)
  {
    seq(|images|, k requires 0 <= k < |images| => Thumb(images[k], k == 0))
  }

  function RenderTitle(v: DetailView, p: Detail): DetailView
  {
    if p.title == "" then v
    else v.(title := Elem(Some(p.title), Some(p.title),
                          if p.titleZh != "" then Some(p.titleZh) else v.title.dataZh))
  }

  function RenderSubtitle(v: DetailView, p: Detail, lang: string): DetailView
  {
    if p.subtitle.None? then v else v.(subtitle := Shown(p.subtitle.value, lang))
  }

  /** The overview paragraph, and the process paragraph only inside a present overview. */
  function RenderDescription(v: DetailView, p: Detail, lang: string): DetailView
  {
    match p.description
    case None => v
    case Some(d) =>
      if d.overview.None? then v
      else
        var v1 := v.(overview := Shown(d.overview.value, lang));
        if d.process.None? then v1 else v1.(process := Shown(d.process.value, lang))
  }

  function RenderSpecs(v: DetailView, p: Detail, lang: string): DetailView
  {
    match p.specs
    case None => v
    case Some(s) => v.(specs := seq(|s|, k requires 0 <= k < |s| => Shown(s[k], lang)))
  }

  /** The main image and the thumbnail strip, only when there is at least one image. */
  function RenderGallery(v: DetailView, p: Detail): DetailView
  {
    if p.images.Some? && |p.images.value| > 0
    then v.(mainImage := p.images.value[0], thumbs := Thumbnails(p.images.value))
    else v
  }

  /** Everything the loader writes for a found record, in the source's order. */
  function RenderDetail(v: DetailView, p: Detail, lang: string): (r: DetailView)
    ensures p.title != "" ==> r.title.text == Some(p.title) && r.title.dataEn == Some(p.title)
    ensures p.title != "" && p.titleZh != "" ==> r.title.dataZh == Some(p.titleZh)
    ensures (p.title == "" ==> r.title == v.title) && (p.titleZh == "" ==> r.title.dataZh == v.title.dataZh)
    ensures p.subtitle.Some? ==> r.subtitle == Shown(p.subtitle.value, lang)
    ensures p.subtitle.None? ==> r.subtitle == v.subtitle
    ensures p.description.Some? && p.description.value.overview.Some? ==>
              r.overview == Shown(p.description.value.overview.value, lang)
    ensures p.description.Some? && p.description.value.overview.Some? && p.description.value.process.Some? ==>
              r.process == Shown(p.description.value.process.value, lang)
    ensures p.description.Some? && p.description.value.process.None? ==> r.process == v.process
    ensures (p.description.None? || p.description.value.overview.None?) ==>
              r.overview == v.overview && r.process == v.process
    ensures p.specs.Some? ==> |r.specs| == |p.specs.value|
    ensures p.specs.Some? ==>
              forall k :: 0 <= k < |r.specs| ==> r.specs[k] == Shown(p.specs.value[k], lang)
    ensures p.specs.None? ==> r.specs == v.specs
    ensures p.images.Some? && |p.images.value| > 0 ==>
              r.mainImage == p.images.value[0] && r.thumbs == Thumbnails(p.images.value)
    ensures !(p.images.Some? && |p.images.value| > 0) ==> r.mainImage == v.mainImage && r.thumbs == v.thumbs
  {
    RenderGallery(RenderSpecs(RenderDescription(RenderSubtitle(RenderTitle(v, p), p, lang), p, lang), p, lang), p)
  }

  /** What one load of the detail page produces: the page as written, and the images the
      gallery is initialised with (`None` when `initGallery` does not run). */
  datatype DetailLoad = DetailLoad(view: DetailView, gallery: Option<seq<Image>>)

  /** The DOMContentLoaded handler: look the page up, fetch, render the record if there is
      one, and start the gallery only when the record has images. */
  function LoadDetail(path: string, data: Fetch<map<string, Detail>>, lang: string, v: DetailView): (r: DetailLoad)
    ensures ProjectIdFromPath(path).None? ==> r == DetailLoad(v, None)
    ensures data.Failed? ==> r == DetailLoad(v, None)
    ensures ProjectIdFromPath(path).Some? && data.Loaded? && ProjectIdFromPath(path).value !in data.value ==>
              r == DetailLoad(v, None)
    ensures ProjectIdFromPath(path).Some? && data.Loaded? && ProjectIdFromPath(path).value in data.value ==>
              r.view == RenderDetail(v, data.value[ProjectIdFromPath(path).value], lang)
    ensures ProjectIdFromPath(path).Some? && data.Loaded? && ProjectIdFromPath(path).value in data.value ==>
              var p := data.value[ProjectIdFromPath(path).value];
              r.gallery == (if p.images.Some? && |p.images.value| > 0 then Some(p.images.value) else None)
    ensures r.gallery.Some? ==> |r.gallery.value| > 0 && r.view.thumbs == Thumbnails(r.gallery.value)
                                && r.view.mainImage == r.gallery.value[0]
  {
    match ProjectIdFromPath(path)
    case None => DetailLoad(v, None)
    case Some(id) =>
      match data
      case Failed => DetailLoad(v, None)
      case Loaded(records) =>
        if id !in records then DetailLoad(v, None)
        else
          var p := records[id];
          var shown := RenderDetail(v, p, lang);
          if p.images.Some? && |p.images.value| > 0
          then DetailLoad(shown, Some(p.images.value))
          else DetailLoad(shown, None)
  }

  /** `currentImageIndex += direction`, wrapped: past the end to 0, below 0 to the last. */
  function Wrapped(i: int, direction: int, n: nat): (r: int)
    requires n > 0
    ensures 0 <= r < n
    ensures 0 <= i + direction < n ==> r == i + direction
    ensures i + direction >= n ==> r == 0
    ensures i + direction < 0 ==> r == n - 1
  {
    var j := i + direction;
    var j' := if j >= n then 0 else j;
    if j' < 0 then n - 1 else j'
  }

  /** Next from the last image is the first, prev from the first is the last. */
  lemma WrapAtEnds(n: nat)
    requires n > 0
    ensures Wrapped(n - 1, 1, n) == 0
    ensures Wrapped(0, -1, n) == n - 1
  {
  }

  /** Next and prev undo each other on every valid index. */
  lemma {:induction false} NextThenPrev(i: int, n: nat)
    requires 0 <= i < n
    ensures Wrapped(Wrapped(i, 1, n), -1, n) == i
    ensures Wrapped(Wrapped(i, -1, n), 1, n) == i
  {
    if i == n - 1 {
      assert Wrapped(i, 1, n) == 0;
    }
    if i == 0 {
      assert Wrapped(i, -1, n) == n - 1;
    }
  }

  /** What a keydown does to the lightbox. */
  datatype KeyEffect = CloseBox | StepImage(direction: int) | NoEffect

  /** Escape closes and the arrows step, all only while the lightbox is displayed. */
  function LightboxKey(key: string, open: bool): (r: KeyEffect)
    ensures !open ==> r == NoEffect
    ensures open && key == "Escape" ==> r == CloseBox
    ensures open && key == "ArrowLeft" ==> r == StepImage(-1)
    ensures open && key == "ArrowRight" ==> r == StepImage(1)
    ensures key != "Escape" && key != "ArrowLeft" && key != "ArrowRight" ==> r == NoEffect
  {
    if !open then NoEffect
    else if key == "Escape" then CloseBox
    else if key == "ArrowLeft" then StepImage(-1)
    else if key == "ArrowRight" then StepImage(1)
    else NoEffect
  }

  /** The closure of `initGallery`: `galleryImages`, `currentImageIndex` and the DOM it writes. */
  class Gallery {
    /** `galleryImages`, read once from the thumbnails' `data-src` / `data-alt`. */
    const images: seq<Image>
    var current: int
    /** The `active` class of each thumbnail. */
    var thumbs: seq<bool>
    var mainImage: Image
    /** The lightbox image, `None` until the lightbox is first filled. */
    var lightboxImage: Option<Image>
    /** The `#current-image` counter, `None` while it still holds the page's static text. */
    var counter: Option<int>
    /** The `#total-images` text. */
    var total: int
    /** `lightbox.style.display === 'block'`. */
    var open: bool
    /** The body's `overflow: hidden` and `lightbox-open` class. */
    var bodyLocked: bool

    predicate Valid()
      reads this
    {
      && |images| > 0
      && 0 <= current < |images|
      && |thumbs| == |images|
      && total == |images|
      && (counter.Some? ==> 1 <= counter.value <= total)
      && (lightboxImage.Some? <==> counter.Some?)
      && (lightboxImage.Some? ==> lightboxImage.value == images[counter.value - 1])
      && bodyLocked == open
    }

    /** `initGallery()`, run only after at least one thumbnail was generated. */
    constructor (thumbnails: seq<Thumb>, shown: Image)
      requires |thumbnails| > 0
      ensures Valid()
      ensures images == seq(|thumbnails|, k requires 0 <= k < |thumbnails| => thumbnails[k].image)
      ensures thumbs == seq(|thumbnails|, k requires 0 <= k < |thumbnails| => thumbnails[k].active)
      ensures current == 0 && total == |thumbnails| && mainImage == shown
      ensures counter == None && lightboxImage == None && !open
    {
      images := seq(|thumbnails|, k requires 0 <= k < |thumbnails| => thumbnails[k].image);
      thumbs := seq(|thumbnails|, k requires 0 <= k < |thumbnails| => thumbnails[k].active);
      current := 0;
      total := |thumbnails|;
      mainImage := shown;
      counter := None;
      lightboxImage := None;
      open := false;
      bodyLocked := false;
    }

    /** A click on thumbnail `index`: it becomes the main image and the only active one. */
    method ClickThumbnail(index: int)
      requires Valid() && 0 <= index < |images|
      modifies this`thumbs, this`mainImage, this`current
      ensures Valid()
      ensures mainImage == images[index] && current == index
      ensures |thumbs| == |images| && forall k :: 0 <= k < |thumbs| ==> (thumbs[k] <==> k == index)
    {
      mainImage := images[index];
      var k := 0;
      while k < |thumbs|
        invariant 0 <= k <= |thumbs| == |images|
        invariant forall j :: 0 <= j < k ==> !thumbs[j]
        invariant mainImage == images[index] && current == old(current)
      {
        thumbs := thumbs[k := false];
        k := k + 1;
      }
      thumbs := thumbs[index := true];
      current := index;
    }

    /** `updateLightbox()`: show the current image and its 1-based number. */
    method UpdateLightbox()
      requires Valid()
      modifies this`lightboxImage, this`counter
      ensures Valid()
      ensures lightboxImage == Some(images[current]) && counter == Some(current + 1)
    {
      lightboxImage := Some(images[current]);
      counter := Some(current + 1);
    }

    /** `changeLightboxImage(direction)`, behind the gallery and the lightbox arrows. */
    method ChangeImage(direction: int)
      requires Valid()
      modifies this`current, this`lightboxImage, this`counter
      ensures Valid()
      ensures current == Wrapped(old(current), direction, |images|)
      ensures lightboxImage == Some(images[current]) && counter == Some(current + 1)
    {
      current := current + direction;
      if current >= |images| {
        current := 0;
      }
      if current < 0 {
        current := |images| - 1;
      }
      UpdateLightbox();
    }

    /** `openLightbox(index)`. */
    method OpenLightbox(index: int)
      requires Valid() && 0 <= index < |images|
      modifies this`current, this`lightboxImage, this`counter, this`open, this`bodyLocked
      ensures Valid()
      ensures current == index && open && bodyLocked
      ensures lightboxImage == Some(images[index]) && counter == Some(index + 1)
    {
      current := index;
      UpdateLightbox();
      open := true;
      bodyLocked := true;
    }

    /** A click on the main image opens the lightbox at the current index. */
    method ClickMainImage()
      requires Valid()
      modifies this`current, this`lightboxImage, this`counter, this`open, this`bodyLocked
      ensures Valid()
      ensures current == old(current) && open
      ensures lightboxImage == Some(images[current]) && counter == Some(current + 1)
    {
      OpenLightbox(current);
    }

    /** `closeLightbox()`. */
    method CloseLightbox()
      requires Valid()
      modifies this`open, this`bodyLocked
      ensures Valid() && !open && !bodyLocked
    {
      open := false;
      bodyLocked := false;
    }

    /** A click inside the lightbox closes it only when it landed on the backdrop itself. */
    method ClickLightbox(onBackdrop: bool)
      requires Valid()
      modifies this`open, this`bodyLocked
      ensures Valid()
      ensures open == (old(open) && !onBackdrop)
    {
      if onBackdrop {
        CloseLightbox();
      }
    }

    /** The document keydown handler of the gallery. */
    method KeyDown(key: string)
      requires Valid()
      modifies this`current, this`lightboxImage, this`counter, this`open, this`bodyLocked
      ensures Valid()
      ensures LightboxKey(key, old(open)) == CloseBox ==>
                !open && current == old(current) && counter == old(counter) &&
                lightboxImage == old(lightboxImage)
      ensures LightboxKey(key, old(open)).StepImage? ==>
                open && current == Wrapped(old(current), LightboxKey(key, old(open)).direction, |images|) &&
                lightboxImage == Some(images[current]) && counter == Some(current + 1)
      ensures LightboxKey(key, old(open)) == NoEffect ==>
                open == old(open) && current == old(current) && counter == old(counter) &&
                lightboxImage == old(lightboxImage)
    {
      if key == "Escape" && open {
        CloseLightbox();
      }
      if open {
        if key == "ArrowLeft" {
          ChangeImage(-1);
        }
        if key == "ArrowRight" {
          ChangeImage(1);
        }
      }
    }
  }
}
