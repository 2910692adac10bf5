/** The value types of the Amiibo snapshot. */
module Amiibos {
  import opened Wrappers

  /** A `String`-backed enum. */
  datatype Franchise = MarioBros | Zelda | MetalGear | Pokemon {
    function RawValue(): string {
      match this
      case MarioBros => "Mario Bros."
      case Zelda => "The Legend of Zelda"
      case MetalGear => "Metal Gear Solid"
      case Pokemon => "Pokemon"
    }
  }

  /** `Franchise(rawValue:)`. */
  function FranchiseNamed(raw: string): Option<Franchise> {
    if raw == "Mario Bros." then Some(MarioBros)
    else if raw == "The Legend of Zelda" then Some(Zelda)
    else if raw == "Metal Gear Solid" then Some(MetalGear)
    else if raw == "Pokemon" then Some(Pokemon)
    else Nil
  }

  lemma FranchiseRoundTrip(f: Franchise)
    ensures FranchiseNamed(f.RawValue()) == Some(f)
  {
  }

  /** `id` is a `UUID` string generated when the value is created; here it is given. */
  datatype Amiibo = Amiibo(id: string, name: string, imageName: string, franchise: Franchise)

  datatype ApiError = DownloadError | DecodingError
}
