/** The argument list of the property insert: the fourteen fields of the new
    property, bound in the order of the columns of the INSERT statement. */
module PropertyInsert {
  import opened JsValues

  /** The columns of the INSERT statement, each filled by one placeholder. */
  datatype Column =
    | OwnerId | Title | Description | ThumbnailPhotoUrl | CoverPhotoUrl | CostPerNight
    | Street | City | Province | PostCode | Country
    | ParkingSpaces | NumberOfBathrooms | NumberOfBedrooms

  /** The columns in the order the statement lists them; the i-th column
      receives placeholder $(i + 1). */
  const Columns: seq<Column> := [
    OwnerId, Title, Description, ThumbnailPhotoUrl, CoverPhotoUrl, CostPerNight,
    Street, City, Province, PostCode, Country,
    ParkingSpaces, NumberOfBathrooms, NumberOfBedrooms
  ]

  function ColumnName(c: Column): string {
    match c
    case OwnerId => "owner_id"
    case Title => "title"
    case Description => "description"
    case ThumbnailPhotoUrl => "thumbnail_photo_url"
    case CoverPhotoUrl => "cover_photo_url"
    case CostPerNight => "cost_per_night"
    case Street => "street"
    case City => "city"
    case Province => "province"
    case PostCode => "post_code"
    case Country => "country"
    case ParkingSpaces => "parking_spaces"
    case NumberOfBathrooms => "number_of_bathrooms"
    case NumberOfBedrooms => "number_of_bedrooms"
  }

  /** The property as the caller submits it; a field it leaves out reads as
      `undefined`. */
  datatype NewProperty = NewProperty(
    ownerId: Param, title: Param, description: Param,
    thumbnailPhotoUrl: Param, coverPhotoUrl: Param, costPerNight: Param,
    street: Param, city: Param, province: Param, postCode: Param, country: Param,
    parkingSpaces: Param, numberOfBathrooms: Param, numberOfBedrooms: Param)

  /** The position of a column in the statement: column c receives placeholder
      $(ColumnIndex(c) + 1). */
  function ColumnIndex(c: Column): (i: nat)
    ensures i < |Columns| && Columns[i] == c
  {
    match c
    case OwnerId => 0
    case Title => 1
    case Description => 2
    case ThumbnailPhotoUrl => 3
    case CoverPhotoUrl => 4
    case CostPerNight => 5
    case Street => 6
    case City => 7
    case Province => 8
    case PostCode => 9
    case Country => 10
    case ParkingSpaces => 11
    case NumberOfBathrooms => 12
    case NumberOfBedrooms => 13
  }

  /** The field of the property that has the column's name. */
  function Field(p: NewProperty, c: Column): Param {
    match c
    case OwnerId => p.ownerId
    case Title => p.title
    case Description => p.description
    case ThumbnailPhotoUrl => p.thumbnailPhotoUrl
    case CoverPhotoUrl => p.coverPhotoUrl
    case CostPerNight => p.costPerNight
    case Street => p.street
    case City => p.city
    case Province => p.province
    case PostCode => p.postCode
    case Country => p.country
    case ParkingSpaces => p.parkingSpaces
    case NumberOfBathrooms => p.numberOfBathrooms
    case NumberOfBedrooms => p.numberOfBedrooms
  }

  /** The values bound by the insert: fourteen of them, the i-th being the
      field of the i-th column, copied unchanged. */
  function AddPropertyValues(p: NewProperty): (values: seq<Param>)
    ensures |values| == |Columns| == 14
    ensures forall i :: 0 <= i < |Columns| ==> values[i] == Field(p, Columns[i])
  {
    [p.ownerId, p.title, p.description, p.thumbnailPhotoUrl, p.coverPhotoUrl, p.costPerNight,
     p.street, p.city, p.province, p.postCode, p.country,
     p.parkingSpaces, p.numberOfBathrooms, p.numberOfBedrooms]
  }

  /** The placeholders of the VALUES list, in order: $1 to $14. */
  const ValuesPlaceholders: seq<nat> := [1, 2, 3, 4, 5, 6, 7, 8, 9, 10, 11, 12, 13, 14]

  /** The VALUES list has one placeholder per column, and the i-th is $(i + 1):
      each names the bound value at the same position. */
  lemma ValuesPlaceholdersNumbered()
    ensures |ValuesPlaceholders| == |Columns|
    ensures forall i :: 0 <= i < |ValuesPlaceholders| ==> ValuesPlaceholders[i] == i + 1
  {
  }

  /** The placeholder standing at column c's position in the VALUES list
      refers to the field of c: the insert stores each field in its column. */
  lemma PlaceholderBindsColumn(p: NewProperty, c: Column)
    ensures var k := ValuesPlaceholders[ColumnIndex(c)];
      k == ColumnIndex(c) + 1 && 1 <= k <= |AddPropertyValues(p)| && AddPropertyValues(p)[k - 1] == Field(p, c)
  {
    ValuesPlaceholdersNumbered();
  }

  /** Each column is listed once and every column name is distinct, so each
      placeholder fills one column and each column one placeholder. */
  lemma ColumnsDistinct()
    ensures forall i, j :: 0 <= i < j < |Columns| ==> Columns[i] != Columns[j]
    ensures forall c: Column :: c in Columns
    ensures forall c, d: Column :: c != d ==> ColumnName(c) != ColumnName(d)
  {
    forall c: Column
      ensures c in Columns
    {
      assert Columns[ColumnIndex(c)] == c;
    }
  }

  /** Every submitted field reaches the statement: two properties that bind the
      same values are the same property. */
  lemma AddPropertyValuesInjective(p: NewProperty, q: NewProperty)
    ensures AddPropertyValues(p) == AddPropertyValues(q) ==> p == q
  {
    if AddPropertyValues(p) == AddPropertyValues(q) {
      assert AddPropertyValues(p)[0] == AddPropertyValues(q)[0];
    }
  }
}
