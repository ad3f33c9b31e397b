/**
 * The landing page carousel: the per-type generic image and collection
 * names, the image and title shown for each item, the trailing "see more"
 * item, and where a click on an item navigates.
 */
module Carousel {
  import opened Common

  datatype Image = Image(fuente: string, titulo: string)

  /** A carousel item; the "see more" item has a null id and no images. */
  datatype Item = Item(id: Option<int>, nombre: string, imagenes: Option<seq<Image>>)

  /** The array the parent page binds to `datosCarousel`, shared by reference. */
  class ItemList {
    var items: seq<Item>

    constructor (items0: seq<Item>)
      ensures items == items0
    {
      items := items0;
    }
  }

  /** One row of the `tipoCarousel` switch: generic image, collection name, plural. */
  datatype TypeRow = TypeRow(image: string, collection: string, plural: string)

  const Types: seq<string> := [
    "PlanesNaturales", "Museos", "Eventos", "Restaurantes",
    "PlanesCulturales", "Alojamientos", "ParquesAtracciones", "CuevasParaValientes"
  ]

  /** The row of a collection whose generic image is named after it. */
  function Row(collection: string): TypeRow {
    TypeRow("generic-" + collection + ".jpg", collection, collection + "s")
  }

  const Rows: seq<TypeRow> := [
    Row("natural"), Row("museum"), Row("event"), Row("restaurant"),
    Row("cultural"), Row("accommodation"), Row("fair"),
    TypeRow("gereic-cave.jpg", "cave", "caves")
  ]

  /** The switch: the first case equal to `tipo`, or none. */
  function TypeTable(tipo: string): (row: Option<TypeRow>)
    ensures row.None? <==> tipo !in Types
    ensures row.Some? ==> exists i :: 0 <= i < |Types| && Types[i] == tipo && row.value == Rows[i]
  {
    if tipo == Types[0] then Some(Rows[0])
    else if tipo == Types[1] then Some(Rows[1])
    else if tipo == Types[2] then Some(Rows[2])
    else if tipo == Types[3] then Some(Rows[3])
    else if tipo == Types[4] then Some(Rows[4])
    else if tipo == Types[5] then Some(Rows[5])
    else if tipo == Types[6] then Some(Rows[6])
    else if tipo == Types[7] then Some(Rows[7])
    else None
  }

  /** Every row but the caves' names its image after its collection; the plural adds an `s`. */
  lemma RowShapes(i: nat)
    requires i < |Rows|
    ensures Rows[i].plural == Rows[i].collection + "s"
    ensures i != 7 ==> Rows[i].image == "generic-" + Rows[i].collection + ".jpg"
    ensures i == 7 ==> Rows[i].image == "gereic-cave.jpg" != "generic-" + Rows[i].collection + ".jpg"
  {
    if i == 7 {
      assert "gereic-cave.jpg"[2] != ("generic-" + "cave" + ".jpg")[2];
    }
  }

  /** The caves' carousel asks for an image whose name is misspelt. */
  lemma CaveImage()
    ensures TypeTable("CuevasParaValientes") == Some(TypeRow("gereic-cave.jpg", "cave", "caves"))
  {
    assert Types[7] == "CuevasParaValientes";
  }

  class Carousel {
    var tipoCarousel: string
    var datosCarousel: ItemList
    var lectura: bool
    var dataFinCarga: ItemList
    var lang: Option<string>
    var imgGeneric: string
    var collectionName: Option<string>
    var collectionNamePlural: Option<string>
    var imagenes: Option<seq<Image>>

    /** The bound inputs, before any hook has run. */
    constructor (tipo: string, datos: ItemList, lectura0: bool)
      ensures tipoCarousel == tipo && datosCarousel == datos && lectura == lectura0
      ensures fresh(dataFinCarga) && dataFinCarga.items == []
      ensures lang == None && imgGeneric == "" && collectionName == None && collectionNamePlural == None
      ensures imagenes == None
    {
      tipoCarousel := tipo;
      datosCarousel := datos;
      lectura := lectura0;
      dataFinCarga := new ItemList([]);
      lang := None;
      imgGeneric := "";
      collectionName := None;
      collectionNamePlural := None;
      imagenes := None;
    }

    /**
     * `ngOnInit`: the stored language (the `!x == null` guard never holds),
     * then the type's row; an unknown type keeps the initial values.
     */
    method Init(stored: Option<string>)
      modifies this`lang, this`imgGeneric, this`collectionName, this`collectionNamePlural
      ensures lang == stored
      ensures TypeTable(tipoCarousel).Some? ==>
        var row := TypeTable(tipoCarousel).value;
        imgGeneric == row.image && collectionName == Some(row.collection) && collectionNamePlural == Some(row.plural)
      ensures TypeTable(tipoCarousel).None? ==>
        (imgGeneric == old(imgGeneric) && collectionName == old(collectionName)
        && collectionNamePlural == old(collectionNamePlural))
    {
      lang := stored;
      var row := TypeTable(tipoCarousel);
      if row.Some? {
        imgGeneric := row.value.image;
        collectionName := Some(row.value.collection);
        collectionNamePlural := Some(row.value.plural);
      }
    }

    /**
     * `ngOnChanges`: once loading is over, exactly one "see more" item is
     * pushed onto the bound array, and `dataFinCarga` becomes that array.
     */
    method Changed()
      modifies this`dataFinCarga, datosCarousel
      ensures !lectura ==> (datosCarousel.items == old(datosCarousel.items) + [Item(None, SeeMore(lang), None)]
        && dataFinCarga == datosCarousel)
      ensures lectura ==> datosCarousel.items == old(datosCarousel.items) && dataFinCarga == old(dataFinCarga)
    {
      if !lectura {
        datosCarousel.items := datosCarousel.items + [Item(None, SeeMore(lang), None)];
        dataFinCarga := datosCarousel;
      }
    }

    /**
     * `getImagen`: the "see more" picture for a null id, the generic image
     * when there is no first image, the first image's source otherwise;
     * null images with an id fail with a TypeError.
     */
    method GetImagen(images: Option<seq<Image>>, id: Option<int>) returns (r: Outcome<string>)
      modifies this`imagenes
      ensures imagenes == images
      ensures id.None? ==> r == Ok("assets/images/verMas.jpg")
      ensures id.Some? && images.None? ==> r.Failed?
      ensures id.Some? && images.Some? && images.value == [] ==> r == Ok("assets/images/" + imgGeneric)
      ensures id.Some? && images.Some? && images.value != [] ==> r == Ok(images.value[0].fuente)
    {
      imagenes := images;
      if id.None? {
        return Ok("assets/images/verMas.jpg");
      }
      if images.None? {
        return Failed;
      }
      if images.value == [] {
        return Ok("assets/images/" + imgGeneric);
      }
      return Ok(images.value[0].fuente);
    }

    /** `getImagenTitulo`: the same choice for the image's title. */
    method GetImagenTitulo(images: Option<seq<Image>>, id: Option<int>) returns (r: Outcome<string>)
      modifies this`imagenes
      ensures imagenes == images
      ensures id.None? ==> r == Ok("")
      ensures id.Some? && images.None? ==> r.Failed?
      ensures id.Some? && images.Some? && images.value == [] ==> r == Ok("Imagen generica")
      ensures id.Some? && images.Some? && images.value != [] ==> r == Ok(images.value[0].titulo)
    {
      imagenes := images;
      if id.None? {
        return Ok("");
      }
      if images.None? {
        return Failed;
      }
      if images.value == [] {
        return Ok("Imagen generica");
      }
      return Ok(images.value[0].titulo);
    }

    /** `goDetalle` and `goMas`: the URL navigated to. */
    function Destination(id: Option<int>, codigo: string): (url: string)
      reads this
      ensures id.None? ==> url == "/resource/" + Shown(collectionNamePlural)
      ensures id.Some? ==> url == "/resource/" + Shown(collectionName) + "/" + codigo
    {
      if id.None? then "/resource/" + Shown(collectionNamePlural)
      else "/resource/" + Shown(collectionName) + "/" + codigo
    }
  }

  /** The name of the "see more" item. */
  function SeeMore(lang: Option<string>): (name: string)
    ensures name == "Ver más" <==> lang == Some("es")
    ensures name == "Ver más" || name == "Gehiago ikusi"
  {
    assert "Ver más" != "Gehiago ikusi" by { assert "Ver más"[0] != "Gehiago ikusi"[0]; }
    if lang == Some("es") then "Ver más" else "Gehiago ikusi"
  }

  /**
   * For a known type, the "see more" item leads to the list of the type's
   * collection and any other item to its detail page.
   */
  lemma DestinationsOfKnownType(c: Carousel, i: nat, codigo: string, id: int)
    requires i < |Types| && c.collectionName == Some(Rows[i].collection) && c.collectionNamePlural == Some(Rows[i].plural)
    ensures c.Destination(None, codigo) == "/resource/" + Rows[i].collection + "s"
    ensures c.Destination(Some(id), codigo) == "/resource/" + Rows[i].collection + "/" + codigo
  {
    RowShapes(i);
  }

  /** Each change after loading adds one more "see more" item to the shared array. */
  method ChangedTwiceScenario(c: Carousel)
    requires !c.lectura
    modifies c, c.datosCarousel
    ensures |c.datosCarousel.items| == |old(c.datosCarousel.items)| + 2
    ensures c.datosCarousel.items[|c.datosCarousel.items| - 1].id.None?
      && c.datosCarousel.items[|c.datosCarousel.items| - 2].id.None?
  {
    c.Changed();
    c.Changed();
  }
}
