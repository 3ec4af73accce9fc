/** The ROS messages the bridge reads and fills: `std_msgs/Header` as a value, and the
    mutable `sensor_msgs/Image` and `sensor_msgs/CompressedImage` message objects, with the
    fields the bridge touches. */
module Messages {
  import opened OpenCv

  /** A message header, or Java's null (the header of a `CvImage` built by the no-argument
      constructor). */
  datatype Header = NullHeader | Header(seqNumber: int, stampSecs: int, stampNsecs: int, frameId: string)

  /** `sensor_msgs/Image`: the payload is the byte content of the message's buffer. */
  class ImageMsg {
    var header: Header
    var height: int
    var width: int
    var encoding: string
    var step: int
    var data: seq<byte>
  }

  /** `sensor_msgs/CompressedImage`. */
  class CompressedImageMsg {
    var header: Header
    var format: string
    var data: seq<byte>
  }
}
