/** The photo browser view: the list read out of a Flickr-style response, the
    choice between the thumbnails, the no-data message and nothing, and the
    image URLs of the thumbnails and of the modal. */
module PhotosView {
  import opened JsValues

  /** A photo of the response; the fields the view reads, as the strings the
      JSON carries. */
  datatype Photo = Photo(id: string, server: string, secret: string, title: string)

  /** `photoList.photos`: an object whose `photo` key may be missing. */
  datatype PhotoPage = PhotoPage(photo: Option<seq<Photo>>)

  /** The `photoList` prop: the response body, whose `photos` key may be missing
      (as in the initial state `[]` and in error responses). */
  datatype PhotoList = PhotoList(photos: Option<PhotoPage>)

  /** The `photoClickData` prop: the initial `[]`, whose destructuring gives
      `undefined` for every field, or the data of a clicked photo. */
  datatype ClickData = NoClick | Clicked(photo: Photo)

  /** `const { photos: { photo = [] } = {} } = photoList`: any missing level
      gives the empty list. */
  function PhotoItems(list: PhotoList): (photos: seq<Photo>)
    ensures list.photos.None? ==> photos == []
    ensures list.photos.Some? && list.photos.value.photo.None? ==> photos == []
    ensures list.photos.Some? && list.photos.value.photo.Some? ==> photos == list.photos.value.photo.value
  {
    match list.photos
    case None => []
    case Some(page) => if page.photo.Some? then page.photo.value else []
  }

  /** `${getImageURL}/${server}/${id}_${secret}_<size>.jpg}`, with the stray
      closing brace the template leaves in every URL. */
  function ImageUrl(base: string, server: string, id: string, secret: string, size: char): (u: string)
    ensures |u| == |base| + |server| + |id| + |secret| + 10
    ensures u[..|base| + 1] == base + "/"
    ensures u[|base| + 1..|base| + 1 + |server|] == server
    ensures u[|base| + 1 + |server|..|u| - 7] == "/" + id + "_" + secret
    ensures u[|u| - 7..] == ['_', size] + ".jpg}"
  {
    base + "/" + server + "/" + id + "_" + secret + "_" + [size] + ".jpg}"
  }

  /** The thumbnail of a photo of the list: size letter `w`. */
  function ThumbnailUrl(base: string, p: Photo): (u: string)
    ensures |u| == |base| + |p.server| + |p.id| + |p.secret| + 10
    ensures u[|base| + 1 + |p.server|..|u| - 7] == "/" + p.id + "_" + p.secret
    ensures u[|u| - 6] == 'w'
  {
    ImageUrl(base, p.server, p.id, p.secret, 'w')
  }

  /** `const { id, server, secret, title } = photoClickData`, as the template
      writes them: every field reads `undefined` before any click. */
  function ClickFields(data: ClickData): (p: Photo)
    ensures data.NoClick? ==> p == Photo("undefined", "undefined", "undefined", "undefined")
    ensures data.Clicked? ==> p == data.photo
  {
    if data.Clicked? then data.photo else Photo("undefined", "undefined", "undefined", "undefined")
  }

  /** The modal image: size letter `m`, built from the click data. */
  function ModalUrl(base: string, data: ClickData): (u: string)
    ensures var p := ClickFields(data); |u| == |base| + |p.server| + |p.id| + |p.secret| + 10
    ensures data.Clicked? ==> u[|base| + 1 + |data.photo.server|..|u| - 7] == "/" + data.photo.id + "_" + data.photo.secret
    ensures u[|u| - 6] == 'm'
  {
    var p := ClickFields(data);
    ImageUrl(base, p.server, p.id, p.secret, 'm')
  }

  /** The thumbnail of a photo and the modal image of the same photo once
      clicked have the same length and differ only in the size letter. */
  lemma ThumbnailAndModalDiffer(base: string, p: Photo)
    ensures var t, m := ThumbnailUrl(base, p), ModalUrl(base, Clicked(p));
            && |t| == |m|
            && t[|t| - 6] == 'w' && m[|m| - 6] == 'm'
            && forall k :: 0 <= k < |t| && k != |t| - 6 ==> t[k] == m[k]
  {
    var prefix := base + "/" + p.server + "/" + p.id + "_" + p.secret + "_";
    assert ThumbnailUrl(base, p) == prefix + ['w'] + ".jpg}";
    assert ModalUrl(base, Clicked(p)) == prefix + ['m'] + ".jpg}";
  }

  /** A thumbnail: `<li key={id}>` holding an image with the thumbnail URL, the
      title as `alt`, and the four fields it hands to `onPhotoClick`. */
  datatype Item = Item(key: string, src: string, alt: string, clickData: ClickData)

  /** The contents of the results list. */
  datatype Body = Items(items: seq<Item>) | NoDataMessage(text: string) | Blank

  /** The modal image, when the modal is open. `alt` is `None` when `title` is
      `undefined`, for which React leaves the attribute out. */
  datatype ModalImage = ModalImage(src: string, alt: Option<string>)

  /** `alt={title}` for the destructured click data: no attribute before any
      click, the clicked photo's title after. */
  function ModalAlt(data: ClickData): (alt: Option<string>)
    ensures alt.None? <==> data.NoClick?
    ensures data.Clicked? ==> alt == Some(data.photo.title)
  {
    if data.Clicked? then Some(data.photo.title) else None
  }

  datatype Screen = Screen(body: Body, modal: Option<ModalImage>)

  /** The props of the view that decide what it draws; `loading` is the
      truthiness of `isLoading`. */
  datatype ViewProps = ViewProps(photoList: PhotoList, isOpen: bool, loading: bool, photoClickData: ClickData)

  const NoDataText := "No data matching the query."

  /** The list item of a photo: keyed and titled by it, and a click on it hands
      over exactly its fields. */
  function ItemOf(base: string, p: Photo): (item: Item)
    ensures item.key == p.id && item.alt == p.title
    ensures item.clickData.Clicked? && ClickFields(item.clickData) == p
    ensures item.src == ThumbnailUrl(base, p)
  {
    Item(p.id, ThumbnailUrl(base, p), p.title, Clicked(p))
  }

  /** The view: one thumbnail per photo, in order, when the list is non-empty;
      otherwise the no-data message unless loading, and nothing while loading;
      the modal image exactly when the modal is open, without an `alt` before
      any click (the template's `src` still reads "undefined" there). */
  function Render(props: ViewProps, base: string): (v: Screen)
    ensures var photos := PhotoItems(props.photoList);
            && (|photos| > 0 <==> v.body.Items?)
            && (v.body.Items? ==> |v.body.items| == |photos|)
            && (v.body.Items? ==> forall i :: 0 <= i < |photos| ==> v.body.items[i] == ItemOf(base, photos[i]))
            && (v.body.NoDataMessage? <==> |photos| == 0 && !props.loading)
            && (v.body.NoDataMessage? ==> v.body.text == NoDataText)
            && (v.body.Blank? <==> |photos| == 0 && props.loading)
    ensures v.modal.Some? <==> props.isOpen
    ensures v.modal.Some? ==> v.modal.value.src == ModalUrl(base, props.photoClickData)
    ensures v.modal.Some? ==> (v.modal.value.alt.Some? <==> props.photoClickData.Clicked?)
    ensures v.modal.Some? && props.photoClickData.Clicked? ==>
              v.modal.value.alt == Some(props.photoClickData.photo.title)
  {
    var photos := PhotoItems(props.photoList);
    var body :=
      if |photos| > 0 then Items(seq(|photos|, i requires 0 <= i < |photos| => ItemOf(base, photos[i])))
      else if !props.loading then NoDataMessage(NoDataText)
      else Blank;
    var modal :=
      if props.isOpen
      then Some(ModalImage(ModalUrl(base, props.photoClickData), ModalAlt(props.photoClickData)))
      else None;
    Screen(body, modal)
  }

  /** Clicking the i-th thumbnail hands over that photo, and the modal opened
      with that data shows the same photo at the modal size, titled alike. */
  lemma ClickedItemOpensItsPhoto(props: ViewProps, base: string, i: nat)
    requires i < |PhotoItems(props.photoList)|
    ensures var item := Render(props, base).body.items[i];
            var afterClick := Render(props.(isOpen := true, photoClickData := item.clickData), base);
            var p := PhotoItems(props.photoList)[i];
            && afterClick.modal == Some(ModalImage(ModalUrl(base, Clicked(p)), Some(p.title)))
            && item.alt == p.title
  {
  }

  /** Before any click the modal image URL is built from `undefined` fields. */
  lemma ModalBeforeAnyClick(base: string)
    ensures ModalUrl(base, NoClick) == ImageUrl(base, "undefined", "undefined", "undefined", 'm')
  {
  }
}
