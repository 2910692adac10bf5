/** `Product` of the current snapshot: the catalogue entry and its hand-written `Decodable` key mapping. */
module Products {
  import opened Wrappers
  import opened Json

  datatype Product = Product(
    id: int,
    title: string,
    price: real,
    description: string,
    category: string,
    imageString: string)

  /** The coding keys, in the order `init(from:)` reads them. */
  const CodingKeys: seq<string> := ["id", "title", "price", "description", "category", "image"]

  /** `init(from:)`: each stored property is read from its key; `imageString` from "image". */
  function Decode(v: Value): Result<Product, DecodingError> {
    var c :- KeyedContainer(v);
    var id :- DecodeInt(c, "id");
    var title :- DecodeString(c, "title");
    var price :- DecodeDouble(c, "price");
    var description :- DecodeString(c, "description");
    var category :- DecodeString(c, "category");
    var imageString :- DecodeString(c, "image");
    Ok(Product(id, title, price, description, category, imageString))
  }

  /** The members a server sends for `p`; the decoder's partner. */
  function Fields(p: Product): Container {
    map[
      "id" := Number(p.id as real),
      "title" := Str(p.title),
      "price" := Number(p.price),
      "description" := Str(p.description),
      "category" := Str(p.category),
      "image" := Str(p.imageString)]
  }

  /** The kind of value the decoder accepts under each coding key. */
  predicate Accepts(key: string, v: Value) {
    if key == "id" then IsIntValue(v)
    else if key == "price" then v.Number?
    else v.Str?
  }

  /** Decoding succeeds exactly when all six keys are present with values of the right kind. */
  lemma DecodeSucceedsIff(fields: Container)
    ensures Decode(Object(fields)).Ok? <==>
      forall k :: k in CodingKeys ==> k in fields && Accepts(k, fields[k])
  {
    DecodeIntAccepts(fields, "id");
    if forall k :: k in CodingKeys ==> k in fields && Accepts(k, fields[k]) {
      assert Accepts("title", fields["title"]) && Accepts("price", fields["price"]);
      assert Accepts("description", fields["description"]) && Accepts("category", fields["category"]);
      assert Accepts("image", fields["image"]);
    }
  }

  /** A decoded product took every property from its key, and `imageString` from "image". */
  lemma DecodeReadsKeys(v: Value, p: Product)
    requires Decode(v) == Ok(p)
    ensures v.Object?
    ensures "id" in v.fields && v.fields["id"] == Number(p.id as real)
    ensures "title" in v.fields && v.fields["title"] == Str(p.title)
    ensures "price" in v.fields && v.fields["price"] == Number(p.price)
    ensures "description" in v.fields && v.fields["description"] == Str(p.description)
    ensures "category" in v.fields && v.fields["category"] == Str(p.category)
    ensures "image" in v.fields && v.fields["image"] == Str(p.imageString)
  {
    DecodeIntAccepts(v.fields, "id");
  }

  /** Whatever else the object holds (the API also sends a rating), the six keys decode back to `p`. */
  lemma DecodeFields(p: Product, extra: Container)
    requires IsInt(p.id)
    ensures Decode(Object(extra + Fields(p))) == Ok(p)
  {
    var c := extra + Fields(p);
    DecodeIntOfInt(c, "id", p.id);
  }

  /** A missing key makes the whole decoding fail. */
  lemma DecodeNeedsEveryKey(fields: Container, k: string)
    requires k in CodingKeys && k !in fields
    ensures Decode(Object(fields)).Err?
  {
    DecodeSucceedsIff(fields);
  }

  /** `Product.sample`: the three demo products. */
  function Sample(): (r: seq<Product>)
    ensures |r| == 3 && r[0].id == 1 && r[1].id == 2 && r[2].id == 3
  {
    [
      Product(1, ShirtTitle, 22.3, ShirtDescription, MensClothing, ShirtImage),
      Product(2, BackpackTitle, 109.95, BackpackDescription, MensClothing, BackpackImage),
      Product(3, JacketTitle, 55.99, JacketDescription, MensClothing, JacketImage)
    ]
  }

  const MensClothing: string := "men's clothing"
  const ShirtTitle: string := "(demo) Mens Casual Premium Slim Fit T-Shirts"
  const ShirtDescription: string := "Slim-fitting style, contrast raglan long sleeve, three-button henley placket, light weight & soft fabric for breathable and comfortable wearing. And Solid stitched shirts with round neck made for durability and a great fit for casual fashion wear and diehard baseball fans. The Henley style round neckline includes a three-button placket."
  const ShirtImage: string := "https://fakestoreapi.com/img/71-3HjGNDUL._AC_SY879._SX._UX._SY._UY_.jpg"
  const BackpackTitle: string := "(demo) Fjallraven - Foldsack No. 1 Backpack, Fits 15 Laptops"
  const BackpackDescription: string := "Your perfect pack for everyday use and walks in the forest. Stash your laptop (up to 15 inches) in the padded sleeve, your everyday"
  const BackpackImage: string := "https://fakestoreapi.com/img/81fPKd-2AYL._AC_SL1500_.jpg"
  const JacketTitle: string := "(demo) Mens Cotton Jacket"
  const JacketDescription: string := "Great outerwear jackets for Spring/Autumn/Winter, suitable for many occasions, such as working, hiking, camping, mountain/rock climbing, cycling, traveling or other outdoors. Good gift choice for you or your family member. A warm hearted love to Father, husband or son in this thanksgiving or Christmas Day."
  const JacketImage: string := "https://fakestoreapi.com/img/71li-ujtlUL._AC_UX679_.jpg"
}
