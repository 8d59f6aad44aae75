/** The protocol-buffer messages the services exchange (package `pb`),
    as plain values. Go's `nil` pointer fields become `Option`. */
module Records {
  import opened Wrappers

  /** One byte of an image payload. */
  newtype byte = b: int | 0 <= b < 256

  type Bytes = seq<byte>

  /** `pb.Location`; coordinates are reals (IEEE details are not modelled). */
  datatype Location = Location(
    latitude: real,
    longitude: real,
    name: string,
    country: string,
    city: string,
    address: string)

  /** The zero value `pb.Location{}`. */
  const EmptyLocation := Location(0.0, 0.0, "", "", "", "")

  /** `pb.ImageMetadata`. */
  datatype ImageMetadata = ImageMetadata(
    id: string,
    title: string,
    description: string,
    location: Option<Location>,
    driveFileId: string)

  datatype UploadImageRequest = UploadImageRequest(
    id: string,
    title: string,
    description: string,
    location: Option<Location>,
    imageData: Bytes)

  datatype UploadImageResponse = UploadImageResponse(success: bool, message: string, metadata: Option<ImageMetadata>)

  datatype GetCurrentImageResponse = GetCurrentImageResponse(success: bool, message: string, metadata: Option<ImageMetadata>)

  datatype GetImageByIdResponse = GetImageByIdResponse(success: bool, message: string, metadata: Option<ImageMetadata>)

  datatype ListImagesResponse = ListImagesResponse(success: bool, message: string, images: seq<ImageMetadata>)

  /** `count` is an int32 on the wire. */
  datatype GetImageCountResponse = GetImageCountResponse(count: int)

  datatype DeleteImageResponse = DeleteImageResponse(success: bool, message: string)

  /** `pb.GetLocationFromCoordsResponse` and `pb.GetLocationFromNameResponse`,
      which have the same fields. */
  datatype LocationResponse = LocationResponse(success: bool, message: string, location: Option<Location>)

  const Int32Max: int := 0x7FFF_FFFF
}
