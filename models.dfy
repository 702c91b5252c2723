/**
 * The stored documents of the back end. Money is an integer amount, and every
 * timestamp (a `DateTime` in the store) is an integer instant.
 */
module Models {

  datatype Property = Property(
    id: string,
    name: string,
    address: string,
    price: int,
    codeInternal: string,
    year: int,
    ownerId: string,
    createdAt: int,
    updatedAt: int)

  datatype Owner = Owner(
    id: string,
    name: string,
    address: string,
    photo: string,
    birthday: int,
    createdAt: int,
    updatedAt: int)

  datatype PropertyImage = PropertyImage(
    id: string,
    propertyId: string,
    file: string,
    enabled: bool,
    createdAt: int,
    updatedAt: int)

  datatype PropertyTrace = PropertyTrace(
    id: string,
    propertyId: string,
    dateSale: int,
    name: string,
    value: int,
    tax: int,
    createdAt: int,
    updatedAt: int)

  /** One snapshot of the four collections, each in the store's natural order. */
  datatype Store = Store(
    properties: seq<Property>,
    owners: seq<Owner>,
    images: seq<PropertyImage>,
    traces: seq<PropertyTrace>)
}
