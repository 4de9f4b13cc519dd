/** The records of types.ts. */
module Types {
  import opened Geometry

  /** The gesture signal one detector result produces. */
  datatype HandGestures = HandGestures(isLeftOpen: bool, isRightPinch: bool, rightHandX: real)

  /** A photo placed on the tree: its structural pose and its scatter target. */
  datatype UploadedPhoto = UploadedPhoto(
    id: string,
    url: string,
    position: Vec3,
    rotation: Vec3,
    scatterPosition: Vec3)
}
