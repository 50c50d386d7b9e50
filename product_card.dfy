/**
 * `parseProductLookup`: the product card sent after a product lookup. The lookup program's
 * JSON arrives here already parsed, or as the parser's error; every emoji marker and label
 * is an opaque constant.
 */
module ProductCard {

  import opened Options
  import opened Text

  /** A product record; each field is the text the card interpolates for it. */
  datatype Product = Product(
    categoria: string,
    codigo: string,
    descripcion: string,
    color: string,
    talla: string,
    tienda: string,
    precioCompra: string,
    monto: string,
    operacion: string,
    image: Option<string>)

  /**
   * The parsed lookup output: the product itself, whether its `group` field is truthy, and
   * `groupProducts` when it is an array.
   */
  datatype Lookup = Lookup(product: Product, group: bool, groupProducts: Option<seq<Product>>)

  /** What `JSON.parse` produced: a lookup, or the message of the error it threw. */
  datatype Parsed = Parsed(lookup: Lookup) | ParseError(message: string)

  /** `{ message, imageUrl }`. */
  datatype Card = Card(message: string, imageUrl: Option<string>)

  const Disponible: string := "DISPONIBLE"
  const Apartado: string := "APARTADO"
  const Vendido: string := "VENDIDO"
  const OtherBucket: string := "other"

  const ErrorPrefix: string := "Error al procesar la información del producto: "
  const PurchasePrefix: string := "💰 Precio de Compra: $"
  const SalePrefix: string := "💵 Precio de Venta: $"
  const GroupTitle: string := "📦 Otros del mismo grupo:"

  /** The marker of a status: 🔒 reserved, ❌ sold, ✅ available, 🔄 anything else. */
  function StatusMarker(operacion: string): (m: string)
    ensures |m| == 1
    ensures m == "🔄" <==> Bucket(operacion) == OtherBucket
  {
    if operacion == Apartado then "🔒"
    else if operacion == Vendido then "❌"
    else if operacion == Disponible then "✅"
    else "🔄"
  }

  function PurchaseLine(p: Product): string
  {
    PurchasePrefix + p.precioCompra
  }

  function StatusLine(p: Product): string
  {
    StatusMarker(p.operacion) + " Estado: " + p.operacion
  }

  /** Category and code, description, colour, size, a blank line, store, a blank line. */
  function TopLines(p: Product): (ls: seq<string>)
    ensures |ls| == 7
  {
    ["👗 " + p.categoria + " - " + p.codigo,
     "📝 " + p.descripcion,
     "🎨 Color: " + p.color,
     "📏 Talla: " + p.talla,
     "",
     "🏪 Tienda: " + p.tienda,
     ""]
  }

  /** Sale price and status. */
  function BottomLines(p: Product): seq<string>
  {
    [SalePrefix + p.monto, StatusLine(p)]
  }

  /** The product's own lines; the purchase price only outside groups. */
  function HeaderLines(p: Product, isGroupChat: bool): seq<string>
  {
    TopLines(p) + (if isGroupChat then [] else [PurchaseLine(p)]) + BottomLines(p)
  }

  /** The bucket `productsByStatus` sorts a sibling into. */
  function Bucket(operacion: string): string
  {
    if operacion == Disponible || operacion == Apartado || operacion == Vendido then operacion else OtherBucket
  }

  /** The siblings of one bucket, in input order. */
  function InBucket(ps: seq<Product>, b: string): (r: seq<Product>)
    ensures |r| <= |ps|
    ensures forall i :: 0 <= i < |r| ==> Bucket(r[i].operacion) == b
  {
    if ps == [] then []
    else (if Bucket(ps[0].operacion) == b then [ps[0]] else []) + InBucket(ps[1..], b)
  }

  function SiblingLine(p: Product): string
  {
    p.codigo + "-" + p.talla + "-" + p.color + "-" + p.tienda
  }

  function OtherLine(p: Product): string
  {
    SiblingLine(p) + " [" + p.operacion + "]"
  }

  /** A bucket's title and one line per sibling; nothing for an empty bucket. */
  function Section(title: string, ps: seq<Product>, other: bool): (ls: seq<string>)
    ensures |ls| == if ps == [] then 0 else 1 + |ps|
  {
    if ps == [] then []
    else [title] + seq(|ps|, i requires 0 <= i < |ps| => if other then OtherLine(ps[i]) else SiblingLine(ps[i]))
  }

  /** The title of a bucket's section: the bucket's marker, then its name. */
  function SectionTitle(b: string): string
  {
    StatusMarker(b) + " " + (if b == Disponible then "Disponibles:"
                             else if b == Apartado then "Apartados:"
                             else if b == Vendido then "Vendidos:"
                             else "Otros:")
  }

  /** The sibling listing: available, reserved, sold, other, in that order. */
  function GroupLines(sibs: seq<Product>): seq<string>
  {
    ["", GroupTitle]
    + Section(SectionTitle(Disponible), InBucket(sibs, Disponible), false)
    + Section(SectionTitle(Apartado), InBucket(sibs, Apartado), false)
    + Section(SectionTitle(Vendido), InBucket(sibs, Vendido), false)
    + Section(SectionTitle(OtherBucket), InBucket(sibs, OtherBucket), true)
  }

  /** The siblings shown: `groupProducts` when `group` is truthy and it is an array. */
  function Siblings(l: Lookup): seq<Product>
  {
    if l.group && l.groupProducts.Some? then l.groupProducts.value else []
  }

  /** The sibling listing when there are siblings to show; nothing otherwise. */
  function SiblingListing(l: Lookup): seq<string>
  {
    if Siblings(l) != [] then GroupLines(Siblings(l)) else []
  }

  function CardLines(l: Lookup, isGroupChat: bool): seq<string>
  {
    HeaderLines(l.product, isGroupChat) + SiblingListing(l)
  }

  /**
   * `parseProductLookup`: the card's lines joined by newlines and the image when it is set;
   * a parse error becomes an error card without image instead of an exception.
   */
  function ParseProductLookup(input: Parsed, isGroupChat: bool): (c: Card)
    ensures input.ParseError? ==> c.imageUrl == None && IsPrefix(ErrorPrefix, c.message)
    ensures c.imageUrl.Some? ==> input.Parsed? && c.imageUrl == input.lookup.product.image && c.imageUrl.value != ""
    ensures input.Parsed? && Truthy(input.lookup.product.image) ==> c.imageUrl == input.lookup.product.image
  {
    match input
    case ParseError(m) =>
      assert (ErrorPrefix + m)[..|ErrorPrefix|] == ErrorPrefix;
      Card(ErrorPrefix + m, None)
    case Parsed(l) =>
      Card(Join(CardLines(l, isGroupChat), '\n'), if Truthy(l.product.image) then l.product.image else None)
  }

  /** The sale-price line is never the purchase-price line: the two start with different markers. */
  lemma SaleLineIsNotPurchaseLine(p: Product)
    ensures SalePrefix + p.monto != PurchaseLine(p)
  {
    assert (SalePrefix + p.monto)[0] == SalePrefix[0];
    assert PurchaseLine(p)[0] == PurchasePrefix[0];
  }

  /**
   * A group chat gets the product's lines of a private chat without the purchase-price line
   * (line 7), and nothing else changes.
   */
  lemma HeaderWithoutPurchasePrice(p: Product)
    ensures |HeaderLines(p, false)| == 10 && |HeaderLines(p, true)| == 9
    ensures HeaderLines(p, false)[7] == PurchaseLine(p)
    ensures HeaderLines(p, true) == HeaderLines(p, false)[..7] + HeaderLines(p, false)[8..]
    ensures HeaderLines(p, true)[7] != PurchaseLine(p)
  {
    var top, bottom := TopLines(p), BottomLines(p);
    var priv := top + [PurchaseLine(p)] + bottom;
    assert HeaderLines(p, false) == priv;
    assert HeaderLines(p, true) == top + bottom;
    assert priv[..7] == top;
    assert priv[8..] == bottom;
    SaleLineIsNotPurchaseLine(p);
  }

  /**
   * The card of a group chat is the card of a private chat without its purchase-price line;
   * that line is in the private card and not in the group card's place.
   */
  lemma PurchasePriceOnlyInPrivate(l: Lookup)
    ensures CardLines(l, false)[7] == PurchaseLine(l.product)
    ensures CardLines(l, true) == CardLines(l, false)[..7] + CardLines(l, false)[8..]
    ensures CardLines(l, true)[7] != PurchaseLine(l.product)
  {
    var p := l.product;
    HeaderWithoutPurchasePrice(p);
    DropBeforeTail(HeaderLines(p, false), HeaderLines(p, true), SiblingListing(l), 7);
  }

  /** Dropping an element of a prefix is dropping it from the whole sequence. */
  lemma DropBeforeTail<T>(a: seq<T>, b: seq<T>, tail: seq<T>, k: int)
    requires 0 <= k < |a| && b == a[..k] + a[k + 1..]
    ensures (a + tail)[k] == a[k]
    ensures b + tail == (a + tail)[..k] + (a + tail)[k + 1..]
  {
    assert (a + tail)[..k] == a[..k];
    assert (a + tail)[k + 1..] == a[k + 1..] + tail;
  }

  /** The card starts with the product's lines; the sibling listing follows iff there are siblings to show. */
  lemma SiblingSectionPresence(l: Lookup, isGroupChat: bool)
    ensures CardLines(l, isGroupChat)[..|HeaderLines(l.product, isGroupChat)|] == HeaderLines(l.product, isGroupChat)
    ensures |CardLines(l, isGroupChat)| > |HeaderLines(l.product, isGroupChat)| <==>
      l.group && l.groupProducts.Some? && l.groupProducts.value != []
    ensures CardLines(l, isGroupChat)[|HeaderLines(l.product, isGroupChat)| - 1] == StatusLine(l.product)
  {
  }

  lemma BucketStep(sibs: seq<Product>, b: string)
    requires sibs != []
    ensures multiset(InBucket(sibs, b)) == Share(sibs[0], b) + multiset(InBucket(sibs[1..], b))
  {
  }

  /** The part of one product that a bucket takes: all of it or nothing. */
  function Share(p: Product, b: string): multiset<Product>
  {
    if Bucket(p.operacion) == b then multiset{p} else multiset{}
  }

  /** A product falls into exactly one of the four buckets. */
  lemma OneBucket(p: Product)
    ensures Share(p, Disponible) + Share(p, Apartado) + Share(p, Vendido) + Share(p, OtherBucket) == multiset{p}
  {
    assert Disponible[0] == 'D' && Apartado[0] == 'A' && Vendido[0] == 'V' && OtherBucket[0] == 'o';
  }

  /** Four sums regrouped: the heads together and the tails together. */
  lemma Regroup(h1: multiset<Product>, h2: multiset<Product>, h3: multiset<Product>, h4: multiset<Product>,
                t1: multiset<Product>, t2: multiset<Product>, t3: multiset<Product>, t4: multiset<Product>)
    ensures (h1 + t1) + (h2 + t2) + (h3 + t3) + (h4 + t4) == (h1 + h2 + h3 + h4) + (t1 + t2 + t3 + t4)
  {
  }

  /** The four buckets of a sequence, as one multiset. */
  function AllBuckets(sibs: seq<Product>): multiset<Product>
  {
    multiset(InBucket(sibs, Disponible)) + multiset(InBucket(sibs, Apartado))
    + multiset(InBucket(sibs, Vendido)) + multiset(InBucket(sibs, OtherBucket))
  }

  /** The first product goes to one bucket; the rest are bucketed as before. */
  lemma AllBucketsStep(sibs: seq<Product>)
    requires sibs != []
    ensures AllBuckets(sibs) == multiset{sibs[0]} + AllBuckets(sibs[1..])
  {
    var p, tail := sibs[0], sibs[1..];
    var h1, h2, h3, h4 := Share(p, Disponible), Share(p, Apartado), Share(p, Vendido), Share(p, OtherBucket);
    var t1, t2 := multiset(InBucket(tail, Disponible)), multiset(InBucket(tail, Apartado));
    var t3, t4 := multiset(InBucket(tail, Vendido)), multiset(InBucket(tail, OtherBucket));
    assert AllBuckets(sibs) == (h1 + t1) + (h2 + t2) + (h3 + t3) + (h4 + t4) by {
      BucketStep(sibs, Disponible);
      BucketStep(sibs, Apartado);
      BucketStep(sibs, Vendido);
      BucketStep(sibs, OtherBucket);
    }
    Regroup(h1, h2, h3, h4, t1, t2, t3, t4);
    OneBucket(p);
  }

  /** A non-empty sequence's multiset is its head's plus its tail's. */
  lemma MultisetCons<T>(s: seq<T>)
    requires s != []
    ensures multiset(s) == multiset{s[0]} + multiset(s[1..])
  {
    assert s == [s[0]] + s[1..];
  }

  lemma {:induction false} AllBucketsHoldEverything(sibs: seq<Product>)
    ensures AllBuckets(sibs) == multiset(sibs)
  {
    if sibs != [] {
      AllBucketsStep(sibs);
      AllBucketsHoldEverything(sibs[1..]);
      MultisetCons(sibs);
    }
  }

  /** The four buckets hold every sibling exactly once. */
  lemma BucketsPartition(sibs: seq<Product>)
    ensures multiset(InBucket(sibs, Disponible) + InBucket(sibs, Apartado) + InBucket(sibs, Vendido) + InBucket(sibs, OtherBucket))
      == multiset(sibs)
  {
    AllBucketsHoldEverything(sibs);
  }

  /**
   * The sibling listing has its two opening lines, one line per sibling and one title per
   * non-empty bucket.
   */
  lemma GroupLinesCount(sibs: seq<Product>)
    ensures |GroupLines(sibs)| == 2 + |sibs|
      + (if InBucket(sibs, Disponible) == [] then 0 else 1)
      + (if InBucket(sibs, Apartado) == [] then 0 else 1)
      + (if InBucket(sibs, Vendido) == [] then 0 else 1)
      + (if InBucket(sibs, OtherBucket) == [] then 0 else 1)
  {
    BucketsPartition(sibs);
    var all := InBucket(sibs, Disponible) + InBucket(sibs, Apartado) + InBucket(sibs, Vendido) + InBucket(sibs, OtherBucket);
    assert |multiset(all)| == |all|;
    assert |multiset(sibs)| == |sibs|;
  }

  /**
   * Every sibling listed under a bucket's title is listed under the marker its own status
   * line would carry: the title starts with that marker.
   */
  lemma BucketMarkerAgrees(sibs: seq<Product>, b: string)
    ensures forall i :: 0 <= i < |InBucket(sibs, b)| ==>
      IsPrefix(StatusMarker(InBucket(sibs, b)[i].operacion), SectionTitle(b))
  {
    forall i | 0 <= i < |InBucket(sibs, b)|
      ensures IsPrefix(StatusMarker(InBucket(sibs, b)[i].operacion), SectionTitle(b))
    {
      var op := InBucket(sibs, b)[i].operacion;
      assert Bucket(op) == b;
      assert StatusMarker(op) == StatusMarker(b);
      assert SectionTitle(b)[..|StatusMarker(b)|] == StatusMarker(b);
    }
  }

  /** Dropping the head of a non-empty front part. */
  lemma DropFirstConcat<T>(a: seq<T>, c: seq<T>)
    requires a != []
    ensures (a + c)[1..] == a[1..] + c
  {
  }

  /** Each bucket keeps the siblings in input order: sorting distributes over concatenation. */
  lemma {:induction false} InBucketConcat(a: seq<Product>, c: seq<Product>, b: string)
    ensures InBucket(a + c, b) == InBucket(a, b) + InBucket(c, b)
  {
    if a != [] {
      InBucketConcat(a[1..], c, b);
      DropFirstConcat(a, c);
      assert (a + c)[0] == a[0];
    } else {
      assert a + c == c;
    }
  }
}
