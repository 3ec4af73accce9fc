# android_cv_bridge: encoding conversion, modelled in Dafny

This project models the encoding-conversion core of android_cv_bridge. The library converts
ROS `sensor_msgs/Image` and `sensor_msgs/CompressedImage` messages to and from OpenCV
matrices. It comes in two variants:

- `cv_bridge`, which uses the OpenCV Java API;
- `cv_bridge_native`, which uses JavaCV.

The project covers four parts of that core:

- **The encoding catalogue.**
  - `getCvType`: an encoding string maps to an OpenCV storage type (depth, channels). The
    semantic names come first, then the `TYPE_…` names.
  - `getEncode` / `getFormat`: an encoding string maps to a colour family.
  - The `Encode` and `Format` enums, each with its number and its reverse `valueOf` map.
- **The conversion planner.**
  - `getConversionCodes`: the fixed (family, family) → codes table.
  - `getConversionCode`: the colour and channel checks, the table lookup, and the depth step
    the native variant appends.
- **The copy/convert driver `toCvCopyImpl`.** It either copies, or runs a plan step by step.
  SAME_FORMAT is a depth change and any other step is a colour conversion. Every colour step
  applies the FIRST code of the plan.
- **Message packing `toImageMsg`.**
  - For raw images: the width, height, step and data length, with the encoding lower-cased.
  - For compressed images: the container that a `Format` (native variant) or a format string
    (cv_bridge variant) selects, and the byte stream the payload is appended to.

OpenCV and Android are passed in as parameters. `OpenCv.Backend` is a record of functions:
`cvtColor`, `convertTo`, `imencode`, `imdecode`, `Mat.put` and BitmapFactory decoding. The
unseen `sensor_msgs.imageEncodings` helpers form `ImageEncodings.Oracle`: `isColor`, `isMono`,
`isBayer`, `numChannels` and `bitDepth`. Java exceptions are values of `JavaLang.Exception`,
carried by `Wrappers.Result`. Objects whose fields the Java code updates are Dafny classes:

- `CvImage` and both `CvCompressImage` classes;
- the `Image` and `CompressedImage` messages.

Module layout, one module per file:

| file | module | models |
|---|---|---|
| wrappers.dfy | Wrappers | Option / Result |
| java_lang.dfy | JavaLang | ASCII case mapping, int/long ranges, `Vector(int)`, `safeLongToInt`, exceptions |
| opencv.dfy | OpenCv | storage types, colour codes, plan steps, `Mat`, the `Backend` |
| families.dfy | Families | `Encode` enum and `valueOf` (both variants declare the same enum) |
| formats.dfy | Formats | `Format` enum and `valueOf` |
| image_encodings.dfy | ImageEncodings | the encoding names, their storage types and families, the `Oracle` |
| conversion_table.dfy | ConversionTable | `getConversionCodes` (the same table in both Encode files) |
| encode_native.dfy | NativeEncode | cv_bridge_native `ImEncode` |
| encode_cv_bridge.dfy | CvBridgeEncode | cv_bridge `ImEncode` |
| messages.dfy | Messages | ROS header and the two message classes |
| cv_image.dfy | CvImageBridge | cv_bridge `CvImage` |
| native_compress_image.dfy | NativeCompressImage | cv_bridge_native `CvCompressImage` |
| compress_image.dfy | CompressImageBridge | cv_bridge `CvCompressImage` |

## Behaviour as written

The model follows the Java code, including where it does something other than what its names,
comments or a quick reading suggest:

- **Non-colour branches of `getConversionCode` return an empty plan.** `new Vector<Integer>(1,
  SAME_FORMAT)` is the capacity constructor, not a one-element list. A non-colour conversion
  therefore runs no step, and the result image is the fresh empty matrix.
- **The cv_bridge `CvImage` table cannot be built.** Its first row, `new Vector<Integer>(-1)`,
  throws `IllegalArgumentException`. Every conversion that reaches the table fails, and only
  copies succeed. The codes the later rows would store are never put into their vectors.
- **The message step is `total()/height`, which is the column count.** It is not the row size
  in bytes. The data length is `total() * channels()`.
- **An INVALID `Format` (native) or an unknown format string (cv_bridge) does not fail
  `toImageMsg`.** No format is written, the payload is empty, and the whole stream still goes
  into the message.
- **Only the native `toImageMsg` converts to bgr8 before compressing.** The cv_bridge
  `toCvCopyImpl` never stores the matrix it receives: a `CvCompressImage` made by `toCvCopy`
  or `cvtColor` holds an empty matrix.
- **The native `toImageMsg` writes the header into the message before the bgr8 conversion.**
  The conversion may then throw, so the header is already written when it does.
- **The cv_bridge planner has no depth step.** Its depth step is commented out.
- **16-bit images cannot pass through the cv_bridge `CvImage`.** `Mat.get` and `Mat.put` with a
  byte array refuse any matrix that is not 8-bit, so `toImageMsg` and `toCvCopy` throw for
  mono16, rgb16 and the other 16-bit encodings.
- **The cv_bridge compressed `matFromImage` needs a multiple of 3 bytes.** It puts the
  bitmap's ARGB pixel buffer into a CV_8UC3 matrix, which `put` refuses unless the buffer's
  length is a multiple of 3.

## Model

| member | source | states |
|---|---|---|
| JavaLang.ToLower | cv_bridge/src/cv_bridge/CvImage.java:106-113 | `String.toLowerCase`: same length, each character lower-cased (ASCII) |
| JavaLang.ToUpper | cv_bridge/src/cv_bridge/CvImage.java:62-75 | `String.toUpperCase`, used at these constructors: same length, each character upper-cased (ASCII) |
| JavaLang.LowerOfUpper | cv_bridge_native/src/cv_bridge/CvCompressImage.java:139-141 | lower-casing after upper-casing is lower-casing; relied on where `toCvCopy` upper-cases the destination that the lower-case `getCvType`/`getEncode` chains then lower-case |
| JavaLang.UpperOfLower | cv_bridge/src/cv_bridge/CvImage.java:106-113 | upper-casing after lower-casing is upper-casing |
| JavaLang.LowerIdempotent | cv_bridge/src/cv_bridge/CvCompressImage.java:63-76 | lower-casing twice is lower-casing once; relied on where these constructors lower-case a format that `toImageMsg` compares with lower-case names |
| JavaLang.UpperIdempotent | cv_bridge/src/cv_bridge/CvImage.java:62-75 | upper-casing twice is upper-casing once |
| JavaLang.LowerOfLowerCase | cv_bridge_native/src/cv_bridge/Encode.java:72-96 | a lower-case string is its own lower-casing |
| JavaLang.UpperOfUpperCase | cv_bridge/src/cv_bridge/Encode.java:64-122 | an upper-case string is its own upper-casing |
| JavaLang.LowerMatchIffUpperMatch | cv_bridge/src/cv_bridge/Encode.java:64-96 | for a lower-case literal t, lower(s) == t exactly when upper(s) == upper(t) |
| JavaLang.WrapInt | cv_bridge/src/cv_bridge/CvImage.java:89-94 | Java `int` arithmetic: the result is in int range, congruent to x modulo 2^32, and x itself when x fits |
| JavaLang.NewVector | cv_bridge/src/cv_bridge/CvImage.java:159-160 | `new Vector(n)` is empty for n >= 0 and throws IllegalArgumentException(n) for n < 0 |
| JavaLang.SafeLongToInt | cv_bridge_native/src/cv_bridge/Encode.java:133-139 | succeeds exactly inside the int range, returning l unchanged; otherwise throws naming l (the same helper is at cv_bridge/src/cv_bridge/Encode.java:125-131 and CvImage.java:148-154) |
| OpenCv.Mat.Total | cv_bridge/src/cv_bridge/CvImage.java:89 | `total()` (rows × cols) fits in a Java long |
| OpenCv.Mat.GetBytes | cv_bridge/src/cv_bridge/CvImage.java:94-95 | `Mat.get` into a fresh n-byte array: length n, the matrix bytes first, zeros after |
| OpenCv.ByteAccessCheck | cv_bridge/src/cv_bridge/CvImage.java:94-95 | the checks OpenCV's `Mat.get`/`Mat.put` make on a byte array: none fails exactly when the length is a multiple of the channel count and the depth is 8U or 8S; otherwise UnsupportedOperationException |
| OpenCv.MatFromBytes | cv_bridge/src/cv_bridge/CvImage.java:346-347 | `new Mat(rows, cols, type)` then `put(rows, cols, bytes)`: succeeds exactly when the byte-access checks pass, with their exception otherwise and the backend's `matFromBytes` matrix on success |
| OpenCv.TotalFitsLong | cv_bridge/src/cv_bridge/CvImage.java:89 | rows × cols of two int dimensions fits in a long |
| Families.ValueOf | cv_bridge_native/src/cv_bridge/Encode.java:61-63 | `valueOf(n)`: the map lookup; a present answer has number n |
| Families.LastNumbered | cv_bridge_native/src/cv_bridge/Encode.java:52-57 | the value the static map ends up holding for a number: a constant with that number, absent exactly when none has it |
| Families.BuildValueMap | cv_bridge_native/src/cv_bridge/Encode.java:52-57 | the static initialiser loop fills a map whose lookup is `valueOf` at every number |
| Families.AllEncodesComplete | cv_bridge_native/src/cv_bridge/Encode.java:49 | `values()` lists every constant |
| Families.NumbersDistinct | cv_bridge/src/cv_bridge/Encode.java:44 | the family numbers are pairwise distinct |
| Families.ValueOfNumber | cv_bridge/src/cv_bridge/Encode.java:55-57 | `valueOf(e.formatNumber) == e` for every constant (the native enum's valueOf, Encode.java:61-63, is the same) |
| Families.ValueOfRange | cv_bridge/src/cv_bridge/Encode.java:46-57 | `valueOf(n)` is present exactly for -1 <= n <= 9, and then has number n |
| Formats.ValueOf | cv_bridge/src/cv_bridge/Format.java:51-53 | `valueOf(n)`: the map lookup; a present answer has number n |
| Formats.LastNumbered | cv_bridge/src/cv_bridge/Format.java:42-47 | the value the static map holds for a number: a format with that number, absent exactly when none has it |
| Formats.BuildValueMap | cv_bridge/src/cv_bridge/Format.java:42-47 | the static initialiser loop fills a map whose lookup is `valueOf` at every number |
| Formats.AllFormatsComplete | cv_bridge/src/cv_bridge/Format.java:39 | `values()` lists every format |
| Formats.NumbersDistinct | cv_bridge/src/cv_bridge/Format.java:39 | INVALID=-1, JPG=0 … TIF=4 are pairwise distinct |
| Formats.ValueOfNumber | cv_bridge/src/cv_bridge/Format.java:51-53 | `valueOf(f.formatNumber) == f` for every format |
| Formats.ValueOfRange | cv_bridge/src/cv_bridge/Format.java:51-53 | `valueOf(n)` is present exactly for -1 <= n <= 4 (null otherwise), and then has number n |
| ImageEncodings.FirstMatch | cv_bridge_native/src/cv_bridge/Encode.java:73-96 | an if-chain of `equals` tests: the result is a listed entry whose key equals the input, and there is none exactly when no entry's key does |
| ImageEncodings.FirstMatchUnique | cv_bridge_native/src/cv_bridge/Encode.java:73-96 | with distinct keys, the chain answers each entry's own key with that entry |
| ImageEncodings.SemanticChainTypes | cv_bridge_native/src/cv_bridge/Encode.java:74-96 | every line of the semantic chain returns the storage type its encoding needs |
| ImageEncodings.StorageTypeChannels | cv_bridge_native/src/cv_bridge/Encode.java:74-96 | 8-bit names give depth 8U and 16-bit names 16U; Bayer and mono have 1 channel, rgb/bgr 3, rgba/bgra 4 |
| ImageEncodings.SemanticChainExact | cv_bridge_native/src/cv_bridge/Encode.java:74-96 | (name, type) is in the chain exactly when type is that name's storage type |
| ImageEncodings.FamilyChainFamilies | cv_bridge_native/src/cv_bridge/Encode.java:237-255 | every line of the `getEncode` chain returns its encoding's family |
| ImageEncodings.FamilyChainExact | cv_bridge_native/src/cv_bridge/Encode.java:237-255 | (name, family) is in the chain exactly when the family is the name's and not INVALID |
| ImageEncodings.NameLowerCase | cv_bridge_native/src/cv_bridge/CvCompressImage.java:55 | the semantic names are lower case; relied on where the constructor's "bgr8" is compared with lower-cased names |
| ImageEncodings.NameEnding | cv_bridge_native/src/cv_bridge/Encode.java:74-96 | a name ends in 8 or 6 for its bit depth, and yuv422 in 2 |
| ImageEncodings.ModelPrefixInjective | cv_bridge_native/src/cv_bridge/Encode.java:74-96 | distinct colour models have distinct name stems |
| ImageEncodings.NameInjective | cv_bridge_native/src/cv_bridge/Encode.java:74-96 | distinct encodings have distinct names |
| ImageEncodings.UpperNameInjective | cv_bridge/src/cv_bridge/CvImage.java:120-146 | distinct encodings have distinct upper-case names |
| ImageEncodings.SemanticMatchIff | cv_bridge_native/src/cv_bridge/Encode.java:73-96 | the lower-case chain answers (e, type of e) exactly for the name of e |
| ImageEncodings.UpperSemanticMatchIff | cv_bridge/src/cv_bridge/Encode.java:64-96 | the upper-case chain answers (e, type of e) exactly for the upper name of e |
| ImageEncodings.SemanticMatchNone | cv_bridge_native/src/cv_bridge/Encode.java:73-96 | the lower-case chain answers nothing exactly when the string is no name |
| ImageEncodings.UpperSemanticMatchNone | cv_bridge/src/cv_bridge/Encode.java:64-96 | the upper-case chain answers nothing exactly when the string is no upper name |
| ImageEncodings.UpperNameInitial | cv_bridge/src/cv_bridge/CvImage.java:120-146 | every upper-case name starts with an upper-case letter |
| ImageEncodings.LowerIsNoUpperName | cv_bridge/src/cv_bridge/CvImage.java:120-146 | no lower-cased string equals an upper-case name |
| ImageEncodings.FamilyMatchName | cv_bridge_native/src/cv_bridge/Encode.java:237-255 | the lower-case family chain gives each name its family |
| ImageEncodings.FamilyMatchNotName | cv_bridge_native/src/cv_bridge/Encode.java:237-255 | a string that is no name gets INVALID |
| ImageEncodings.UpperFamilyMatchName | cv_bridge/src/cv_bridge/Encode.java:230-248 | the upper-case family chain gives each upper name its family |
| ImageEncodings.UpperFamilyMatchNotName | cv_bridge/src/cv_bridge/Encode.java:230-248 | a string that is no upper name gets INVALID |
| ImageEncodings.StorageOrderExact | cv_bridge_native/src/cv_bridge/Encode.java:98-130 | the TYPE_ chain lists exactly the storage types that have a TYPE_ name (1-4 channels of 8U…64F) |
| ImageEncodings.DepthTagInjective | cv_bridge_native/src/cv_bridge/Encode.java:98-130 | distinct depths have distinct tags (8U, 8S, …, 64F) |
| ImageEncodings.StorageNameInjective | cv_bridge_native/src/cv_bridge/Encode.java:98-130 | distinct storage types have distinct TYPE_ names |
| ImageEncodings.NamedStorageTypeIff | cv_bridge_native/src/cv_bridge/Encode.java:98-130 | the TYPE_ chain answers t exactly for the TYPE_ name of t |
| ImageEncodings.StorageNameNotSemantic | cv_bridge_native/src/cv_bridge/Encode.java:98-130 | no TYPE_ name is a semantic name, in either case, so the two chains never compete |
| ConversionTable.BuildConversionCodes | cv_bridge_native/src/cv_bridge/Encode.java:141-235 | the loop and the `put` rows build a map whose lookup at every pair is the table entry (the cv_bridge Encode file builds the same table at lines 134-228) |
| ConversionTable.PutGrayRow | cv_bridge_native/src/cv_bridge/Encode.java:149-156 | the GRAY `put` lines: given a map holding exactly the identity entries and the rows before, the new map holds exactly those plus the table's GRAY entries |
| ConversionTable.PutRgbRow | cv_bridge_native/src/cv_bridge/Encode.java:158-165 | the RGB `put` lines: given a map holding exactly the identity entries and the rows before, the new map holds exactly those plus the table's RGB entries |
| ConversionTable.PutBgrRow | cv_bridge_native/src/cv_bridge/Encode.java:167-174 | the BGR `put` lines: given a map holding exactly the identity entries and the rows before, the new map holds exactly those plus the table's BGR entries |
| ConversionTable.PutRgbaRow | cv_bridge_native/src/cv_bridge/Encode.java:176-183 | the RGBA `put` lines: given a map holding exactly the identity entries and the rows before, the new map holds exactly those plus the table's RGBA entries |
| ConversionTable.PutBgraRow | cv_bridge_native/src/cv_bridge/Encode.java:185-192 | the BGRA `put` lines: given a map holding exactly the identity entries and the rows before, the new map holds exactly those plus the table's BGRA entries |
| ConversionTable.PutYuv422Row | cv_bridge_native/src/cv_bridge/Encode.java:194-203 | the YUV422 `put` lines: given a map holding exactly the identity entries and the rows before, the new map holds exactly those plus the table's YUV422 entries |
| ConversionTable.PutBayerRggbRow | cv_bridge_native/src/cv_bridge/Encode.java:206-211 | the BAYER_RGGB `put` lines: given a map holding exactly the identity entries and the rows before, the new map holds exactly those plus the table's BAYER_RGGB entries |
| ConversionTable.PutBayerBggrRow | cv_bridge_native/src/cv_bridge/Encode.java:213-218 | the BAYER_BGGR `put` lines: given a map holding exactly the identity entries and the rows before, the new map holds exactly those plus the table's BAYER_BGGR entries |
| ConversionTable.PutBayerGbrgRow | cv_bridge_native/src/cv_bridge/Encode.java:220-225 | the BAYER_GBRG `put` lines: given a map holding exactly the identity entries and the rows before, the new map holds exactly those plus the table's BAYER_GBRG entries |
| ConversionTable.PutBayerGrbgRow | cv_bridge_native/src/cv_bridge/Encode.java:227-232 | the BAYER_GRBG `put` lines: given a map holding exactly the identity entries and the rows before, the new map holds exactly those plus the table's BAYER_GRBG entries |
| ConversionTable.EntryIffSupported | cv_bridge_native/src/cv_bridge/Encode.java:141-235 | an entry exists exactly for: identity on families 0..5; all pairs among GRAY/RGB/BGR/RGBA/BGRA; YUV422 to those five; each Bayer family to GRAY/RGB/BGR |
| ConversionTable.EntryShape | cv_bridge_native/src/cv_bridge/Encode.java:141-235 | every entry has one element, SAME_FORMAT exactly on the identity rows |
| ConversionTable.Absences | cv_bridge_native/src/cv_bridge/Encode.java:141-235 | no entry mentions INVALID; no Bayer → same Bayer entry, nothing into Bayer, nothing into YUV422 from elsewhere |
| NativeEncode.GetCvType | cv_bridge_native/src/cv_bridge/Encode.java:71-131 | `getCvType`: the lower-cased semantic chain, then the upper-cased TYPE_ chain, then the exception; its meaning is stated by the four GetCvType lemmas below |
| NativeEncode.GetCvTypeSemantic | cv_bridge_native/src/cv_bridge/Encode.java:72-96 | a string whose lower-casing is a semantic name gets that name's storage type |
| NativeEncode.GetCvTypeStorage | cv_bridge_native/src/cv_bridge/Encode.java:98-130 | a string whose upper-casing is a TYPE_ name gets that type |
| NativeEncode.GetCvTypeUnrecognised | cv_bridge_native/src/cv_bridge/Encode.java:98-131 | a string in neither vocabulary throws "Unrecognized image encoding", naming the upper-cased string |
| NativeEncode.GetCvTypeRecognised | cv_bridge_native/src/cv_bridge/Encode.java:71-131 | every accepted string is a semantic name (lower-cased) or a TYPE_ name (upper-cased) |
| NativeEncode.GetCvTypeCaseInsensitive | cv_bridge_native/src/cv_bridge/Encode.java:71-131 | strings equal up to letter case give the same outcome |
| NativeEncode.GetEncode | cv_bridge_native/src/cv_bridge/Encode.java:237-255 | `getEncode`: the lower-cased family chain, INVALID when nothing matches; stated by GetEncodeName / GetEncodeNotName |
| NativeEncode.GetEncodeName | cv_bridge_native/src/cv_bridge/Encode.java:237-255 | a name in any case gets its family, which is INVALID exactly for the 16-bit pixel names |
| NativeEncode.GetEncodeNotName | cv_bridge_native/src/cv_bridge/Encode.java:237-255 | any other string gets INVALID |
| NativeEncode.Plan | cv_bridge_native/src/cv_bridge/Encode.java:277-310 | the value `getConversionCode` returns or throws; stated by PlanFails, PlanShape, PlanUnsupported and PlanIdentity |
| NativeEncode.GetConversionCode | cv_bridge_native/src/cv_bridge/Encode.java:257-311 | the method (table build, checks, lookup, `val.add`) returns the plan function |
| NativeEncode.PlanFails | cv_bridge_native/src/cv_bridge/Encode.java:277-303 | fails exactly in three ways: non-colour to colour, a channel mismatch without both colour, a missing pair with both colour; with neither side colour the error is the channel-count mismatch, with a colour source and non-colour destination the colour-to-non-colour mismatch, with a non-colour source and colour destination the non-colour-to-colour error, and with both colour "Unsupported conversion" |
| NativeEncode.PlanShape | cv_bridge_native/src/cv_bridge/Encode.java:277-310 | a successful plan is empty without both colour; otherwise the entry, plus one SAME_FORMAT exactly when the bit depths differ (length 1 or 2) |
| NativeEncode.PlanUnsupported | cv_bridge_native/src/cv_bridge/Encode.java:296-303 | with both colour, a 16-bit name on either side throws "Unsupported conversion" |
| NativeEncode.PlanIdentity | cv_bridge_native/src/cv_bridge/Encode.java:144-146 | a name of family 0..5 to itself at equal depth plans one SAME_FORMAT |
| CvBridgeEncode.GetCvType | cv_bridge/src/cv_bridge/Encode.java:64-123 | `getCvType`: upper-cased comparison with both chains, then the exception; stated by GetCvTypeAgrees and the lemmas below |
| CvBridgeEncode.UpperNameMatch | cv_bridge/src/cv_bridge/Encode.java:64-96 | upper-case matching accepts exactly what lower-case matching accepts |
| CvBridgeEncode.GetCvTypeAgrees | cv_bridge/src/cv_bridge/Encode.java:64-123 | accepts what the native `getCvType` accepts, with the same type; errors name the string as passed |
| CvBridgeEncode.GetCvTypeSemantic | cv_bridge/src/cv_bridge/Encode.java:66-96 | a semantic name in any case gets its storage type |
| CvBridgeEncode.GetCvTypeStorage | cv_bridge/src/cv_bridge/Encode.java:98-122 | a TYPE_ name in any case gets its type |
| CvBridgeEncode.GetCvTypeUnrecognised | cv_bridge/src/cv_bridge/Encode.java:98-123 | any other string throws "Unrecognized image encoding" |
| CvBridgeEncode.GetFormat | cv_bridge/src/cv_bridge/Encode.java:230-248 | `getFormat`: upper-cased comparison with the family names, INVALID otherwise; stated by GetFormatAgrees / GetFormatName / GetFormatNotName |
| CvBridgeEncode.GetFormatAgrees | cv_bridge/src/cv_bridge/Encode.java:230-248 | `getFormat` gives every string the family the native `getEncode` gives it |
| CvBridgeEncode.GetFormatName | cv_bridge/src/cv_bridge/Encode.java:230-248 | a name in any case gets its family; INVALID exactly for the 16-bit pixel names |
| CvBridgeEncode.GetFormatNotName | cv_bridge/src/cv_bridge/Encode.java:230-248 | any other string gets INVALID |
| CvBridgeEncode.Plan | cv_bridge/src/cv_bridge/Encode.java:253-304 | the value `getConversionCode` returns or throws; stated by PlanIffSupported, PlanInvalid and PlanAgreesWithNative |
| CvBridgeEncode.GetConversionCode | cv_bridge/src/cv_bridge/Encode.java:250-305 | the method, with its flags fixed to true, returns the plan function |
| CvBridgeEncode.PlanIffSupported | cv_bridge/src/cv_bridge/Encode.java:253-297 | every call reaches the table; success exactly for supported pairs, else "Unsupported conversion"; one step, SAME_FORMAT exactly for equal families |
| CvBridgeEncode.PlanInvalid | cv_bridge/src/cv_bridge/Encode.java:290-297 | a pair with an INVALID family (a 16-bit or unknown name) throws |
| CvBridgeEncode.PlanAgreesWithNative | cv_bridge/src/cv_bridge/Encode.java:299-304 | where both sides are colour: same failures as the native planner; same plan at equal depths; the native one has one SAME_FORMAT more otherwise |
| CvImageBridge.MessageLayout | cv_bridge/src/cv_bridge/CvImage.java:89-95 | the width, height, step and length `toImageMsg` computes, or the exception it meets first; stated by LayoutOutcome and LayoutValues |
| CvImageBridge.LayoutOutcome | cv_bridge/src/cv_bridge/CvImage.java:89-95 | the packing fails exactly when rows × cols exceeds int, the matrix has no rows (division by zero), total × channels wraps negative (NegativeArraySize), or `Mat.get` refuses the array (UnsupportedOperationException); in particular a matrix that is not 8-bit is never packed |
| CvImageBridge.LayoutValues | cv_bridge/src/cv_bridge/CvImage.java:89-95 | width = cols, height = rows, step = total/height = cols, length = total × channels (wrapped to int) |
| CvImageBridge.RunPlan | cv_bridge/src/cv_bridge/CvImage.java:312-336 | the plan loop computes `Converted` |
| CvImageBridge.ImagesUseFirstCode | cv_bridge/src/cv_bridge/CvImage.java:312-336 | two plans with the same first code and the same SAME_FORMAT positions give the same images at every step |
| CvImageBridge.ConvertedUsesFirstCode | cv_bridge/src/cv_bridge/CvImage.java:333 | hence only code 0 matters for the result |
| CvImageBridge.ImagesBeforeColour | cv_bridge/src/cv_bridge/CvImage.java:315-329 | SAME_FORMAT steps do nothing: before the first colour step both images stay empty |
| CvImageBridge.ConvertedShape | cv_bridge/src/cv_bridge/CvImage.java:312-338 | an all-SAME_FORMAT plan gives the empty matrix; a single colour step gives `cvtColor(source, code)` |
| CvImageBridge.CvImage.constructor | cv_bridge/src/cv_bridge/CvImage.java:59 | null header, empty matrix, empty encoding and stream |
| CvImageBridge.CvImage.WithEncoding | cv_bridge/src/cv_bridge/CvImage.java:62-67 | header kept, encoding upper-cased |
| CvImageBridge.CvImage.WithImage | cv_bridge/src/cv_bridge/CvImage.java:69-75 | header and image kept, encoding upper-cased |
| CvImageBridge.CvImage.ToBlankImageMsg | cv_bridge/src/cv_bridge/CvImage.java:78-83 | passes a null message and throws NullPointerException; the object is unchanged |
| CvImageBridge.CvImage.ToImageMsg | cv_bridge/src/cv_bridge/CvImage.java:86-102 | header copied, encoding lower-cased, success exactly when the layout succeeds (with the layout's exception otherwise, so 16-bit matrices throw), then width/height/step from the matrix, the bytes appended to the stream and the message data the stream |
| CvImageBridge.CvImage.GetConversionCodes | cv_bridge/src/cv_bridge/CvImage.java:156-211 | the table build always throws IllegalArgumentException(-1) |
| CvImageBridge.CvImage.GetConversionCode | cv_bridge/src/cv_bridge/CvImage.java:231-286 | every call throws the table's exception |
| CvImageBridge.CvImage.ToCvCopyImpl | cv_bridge/src/cv_bridge/CvImage.java:288-341 | succeeds exactly for an empty or equal destination: a new object with the source header, encoding and matrix; otherwise the table's exception |
| CvImageBridge.CvImage.GetCvType | cv_bridge/src/cv_bridge/CvImage.java:120-146 | `getCvType`: exact comparison with the upper-case names; stated by GetCvTypeExact, GetCvTypeFails and AcceptedIsUpperName |
| CvImageBridge.CvImage.GetFormat | cv_bridge/src/cv_bridge/CvImage.java:213-229 | `getFormat`: exact comparison with the upper-case family names; stated by GetFormatExact |
| CvImageBridge.CvImage.MatFromImage | cv_bridge/src/cv_bridge/CvImage.java:343-349 | an unrecognised encoding throws naming it; otherwise success exactly when `Mat.put` accepts the payload for that type |
| CvImageBridge.CvImage.ToCvCopy | cv_bridge/src/cv_bridge/CvImage.java:106-108 | always the copy branch: success exactly when `matFromImage` succeeds, with its exception otherwise, the header and the upper-cased encoding |
| CvImageBridge.CvImage.ToCvCopyTo | cv_bridge/src/cv_bridge/CvImage.java:111-113 | succeeds only with an empty destination (the lower-cased destination never equals the upper-cased source otherwise); the error is `matFromImage`'s when that fails, else the table's |
| CvImageBridge.CvImage.CvtColor | cv_bridge/src/cv_bridge/CvImage.java:116-118 | succeeds exactly for an empty or equal destination, as a copy of the object |
| CvImageBridge.GetCvTypeExact | cv_bridge/src/cv_bridge/CvImage.java:120-146 | each upper-case name gets its storage type |
| CvImageBridge.MatFromImageOfName | cv_bridge/src/cv_bridge/CvImage.java:343-349 | for a message whose encoding is an upper-case name: success exactly when the name is not 16-bit and the payload length is a multiple of its channel count; every 16-bit name throws UnsupportedOperationException |
| CvImageBridge.GetCvTypeFails | cv_bridge/src/cv_bridge/CvImage.java:120-146 | any string that is not exactly an upper-case name throws, naming it |
| CvImageBridge.AcceptedIsUpperName | cv_bridge/src/cv_bridge/CvImage.java:120-146 | an accepted string is an upper-case name, already upper case |
| CvImageBridge.GetCvTypeStricter | cv_bridge/src/cv_bridge/CvImage.java:120-146 | agrees with the Encode `getCvType` where it succeeds, but rejects every TYPE_ name |
| CvImageBridge.PackedEncodingRejected | cv_bridge/src/cv_bridge/CvImage.java:90-92 | a lower-cased encoding, as `toImageMsg` writes it, is rejected by `getCvType` and has family INVALID |
| CvImageBridge.GetFormatExact | cv_bridge/src/cv_bridge/CvImage.java:213-229 | each upper-case name gets its family; any other string INVALID |
| NativeCompressImage.ContainerExact | cv_bridge_native/src/cv_bridge/CvCompressImage.java:95-124 | every format except INVALID selects a container, whose extension is "." plus its name; distinct formats give distinct names, so at most one branch fires |
| NativeCompressImage.DepthScale | cv_bridge_native/src/cv_bridge/CvCompressImage.java:184-200 | scale 65535/255 exactly for 8 → 16 bits, 255/65535 exactly for 16 → 8, plain conversion otherwise |
| NativeCompressImage.Planned | cv_bridge_native/src/cv_bridge/CvCompressImage.java:170-175 | an empty source encoding is planned as "bgr8"; any other is planned as itself |
| NativeCompressImage.RunPlan | cv_bridge_native/src/cv_bridge/CvCompressImage.java:177-208 | the plan loop computes `Converted`, with the scale from the depths of the source encoding as given |
| NativeCompressImage.StepsFailurePersists | cv_bridge_native/src/cv_bridge/CvCompressImage.java:181-208 | once a SAME_FORMAT step throws, the loop's outcome is that exception |
| NativeCompressImage.StepsFail | cv_bridge_native/src/cv_bridge/CvCompressImage.java:181-200 | the loop throws exactly when a SAME_FORMAT step is met and the destination has no storage type, with that exception |
| NativeCompressImage.ConvertedShapes | cv_bridge_native/src/cv_bridge/CvCompressImage.java:177-209 | an empty plan leaves the fresh empty matrix; a lone colour step is `cvtColor(source, code)`; a lone SAME_FORMAT converts the source; a trailing SAME_FORMAT converts the colour result |
| NativeCompressImage.ConversionNonColour | cv_bridge_native/src/cv_bridge/CvCompressImage.java:177-181 | a successful non-colour plan is empty, so the result is the empty matrix |
| NativeCompressImage.ConvertedDepthStep | cv_bridge_native/src/cv_bridge/CvCompressImage.java:181-205 | at different depths the plan is code then SAME_FORMAT, and the result is the colour result converted to the destination type, or its getCvType error |
| NativeCompressImage.EmptySourcePlannedAsBgr8 | cv_bridge_native/src/cv_bridge/CvCompressImage.java:170-175 | an empty source plans exactly as "bgr8"; the result is the same when "" and "bgr8" report the same depth |
| NativeCompressImage.CvCompressImage.constructor | cv_bridge_native/src/cv_bridge/CvCompressImage.java:53-59 | null header, empty matrix, encoding "bgr8", empty stream |
| NativeCompressImage.CvCompressImage.WithEncoding | cv_bridge_native/src/cv_bridge/CvCompressImage.java:62-67 | header kept, encoding stored verbatim |
| NativeCompressImage.CvCompressImage.WithImage | cv_bridge_native/src/cv_bridge/CvCompressImage.java:69-75 | header and image kept, encoding stored verbatim |
| NativeCompressImage.CvCompressImage.NormaliseToBgr8 | cv_bridge_native/src/cv_bridge/CvCompressImage.java:88-92 | the image becomes its bgr8 conversion unless the encoding is bgr8; the encoding stays |
| NativeCompressImage.CvCompressImage.ToImageMsg | cv_bridge_native/src/cv_bridge/CvCompressImage.java:86-132 | null message throws; header copied first; success exactly when the bgr8 normalisation does; then the container's name, its payload appended to the stream, and the stream as data |
| NativeCompressImage.CvCompressImage.ToCvCopyImpl | cv_bridge_native/src/cv_bridge/CvCompressImage.java:147-213 | copy for an empty or equal destination (encoding the source's, or bgr8 if empty); otherwise success exactly when the conversion does, with the destination encoding and the converted matrix |
| NativeCompressImage.CvCompressImage.MatFromImage | cv_bridge_native/src/cv_bridge/CvCompressImage.java:215-226 | the payload bytes handed to `imdecode`, a foreign call of the backend |
| NativeCompressImage.CvCompressImage.ToCvCopy | cv_bridge_native/src/cv_bridge/CvCompressImage.java:135-137 | always the copy branch: bgr8 and the decoded payload |
| NativeCompressImage.CvCompressImage.ToCvCopyTo | cv_bridge_native/src/cv_bridge/CvCompressImage.java:139-141 | converts from "" (planned as bgr8) to the upper-cased destination |
| NativeCompressImage.CvCompressImage.CvtColor | cv_bridge_native/src/cv_bridge/CvCompressImage.java:143-145 | `toCvCopyImpl` on the object's own matrix, header and encoding |
| CompressImageBridge.ContainerChoice | cv_bridge/src/cv_bridge/CvCompressImage.java:91-120 | exactly "", "jpg", "png", "jp2", "bmp", "tif" select a container; "" selects jpg, the others themselves; extension "." plus the name |
| CompressImageBridge.ContainerOfName | cv_bridge/src/cv_bridge/CvCompressImage.java:91-120 | a written format name is lower case and selects the same container again |
| CompressImageBridge.ContainerAgrees | cv_bridge/src/cv_bridge/CvCompressImage.java:91-120 | the names are those of the native `Format` dispatch; only INVALID has none |
| CompressImageBridge.CvCompressImage.constructor | cv_bridge/src/cv_bridge/CvCompressImage.java:60 | null header, empty matrix, empty format and stream |
| CompressImageBridge.CvCompressImage.WithFormat | cv_bridge/src/cv_bridge/CvCompressImage.java:63-68 | header kept, format lower-cased |
| CompressImageBridge.CvCompressImage.WithImage | cv_bridge/src/cv_bridge/CvCompressImage.java:70-76 | header and image kept, format lower-cased |
| CompressImageBridge.CvCompressImage.ToBlankImageMsg | cv_bridge/src/cv_bridge/CvCompressImage.java:79-84 | a null message throws NullPointerException; the object is unchanged |
| CompressImageBridge.CvCompressImage.ToImageMsg | cv_bridge/src/cv_bridge/CvCompressImage.java:88-126 | header copied; the selected container's name, or the old format when none; its payload (empty when none) appended to the stream; the stream as data |
| CompressImageBridge.CvCompressImage.ToCvCopyImpl | cv_bridge/src/cv_bridge/CvCompressImage.java:143-152 | a new object with the header and format only; the image is the empty matrix |
| CompressImageBridge.CvCompressImage.MatFromImage | cv_bridge/src/cv_bridge/CvCompressImage.java:154-166 | a payload BitmapFactory cannot decode throws NullPointerException; otherwise success exactly when the pixel buffer's length is a multiple of 3 (`put` into CV_8UC3), UnsupportedOperationException otherwise |
| CompressImageBridge.CvCompressImage.ToCvCopy | cv_bridge/src/cv_bridge/CvCompressImage.java:129-131 | success exactly when `matFromImage` succeeds, with its exception otherwise; empty format; empty image |
| CompressImageBridge.CvCompressImage.ToCvCopyTo | cv_bridge/src/cv_bridge/CvCompressImage.java:134-136 | as `toCvCopy`, with the format lower-cased |
| CompressImageBridge.CvCompressImage.CvtColor | cv_bridge/src/cv_bridge/CvCompressImage.java:139-141 | keeps the header and format; the image is the empty matrix |

## Left out

- Android tutorial activities (MainActivity, MainActivityJavacv): UI and ROS wiring, not conversion logic.
- Pixel semantics of `cvtColor`, `convertTo`, `imencode`, `imdecode`, `Mat.put`/`Mat.get` and `BitmapFactory`: these are foreign library calls. They are fields of `OpenCv.Backend` and return opaque matrices and bytes; only the array checks `put` and `get` make are modelled (`OpenCv.ByteAccessCheck`). What `put(height, width, bytes)` writes, starting at a position one past the last row, is the backend's `matFromBytes`.
- Exceptions of OpenCV itself (a `CvException` from `cvtColor` when the channel count does not fit the code, `new Mat` refusing its dimensions, `imencode` or `convertTo` failing): every `OpenCv.Backend` function returns a value and never throws. The only library failures modelled are the `Mat.get`/`Mat.put` array checks and a null bitmap. The members below therefore say "success exactly when" relative to a backend that never throws:
- CvImageBridge.CvImage.MatFromImage: `new Mat` and `put` are taken not to throw beyond the array checks.
- CvImageBridge.CvImage.ToImageMsg: `Mat.get` is taken not to throw beyond the array checks.
- CvImageBridge.CvImage.ToCvCopy: inherits MatFromImage's never-throwing `new Mat`.
- CvImageBridge.CvImage.ToCvCopyTo: inherits MatFromImage's never-throwing `new Mat`.
- CvImageBridge.MatFromImageOfName: relative to a `new Mat` that never throws.
- NativeCompressImage.CvCompressImage.NormaliseToBgr8: `cvtColor` is taken never to throw.
- NativeCompressImage.CvCompressImage.ToImageMsg: `cvtColor` and `imencode` are taken never to throw.
- NativeCompressImage.CvCompressImage.ToCvCopyImpl: `cvtColor` and `convertTo` are taken never to throw; only `getCvType` of the destination can fail a step.
- NativeCompressImage.CvCompressImage.ToCvCopy: `imdecode` is taken never to throw.
- NativeCompressImage.CvCompressImage.ToCvCopyTo: `imdecode`, `cvtColor` and `convertTo` are taken never to throw.
- NativeCompressImage.CvCompressImage.CvtColor: `cvtColor` and `convertTo` are taken never to throw.
- NativeCompressImage.RunPlan: `cvtColor` and `convertTo` are taken never to throw.
- CompressImageBridge.CvCompressImage.MatFromImage: `copyPixelsToBuffer` and `new Mat` are taken never to throw.
- The internals of `sensor_msgs.imageEncodings` (`isColor`, `isMono`, `isBayer`, `numChannels`, `bitDepth`): the class is not part of this model, so they are fields of `ImageEncodings.Oracle`. Its string constants are taken to be the lower-case names ("bgr8", …) and the upper-case TYPE_ names ("TYPE_8UC1", …).
- JavaLang.ToLower: maps ASCII letters only. Java's `toLowerCase` also maps non-ASCII letters, and the Kelvin sign (U+212A) to ASCII 'k'. No literal the code compares lower-cased strings with contains a 'k', so no comparison outcome changes, but UpperOfLower and LowerMatchIffUpperMatch do not hold in Java for strings containing that sign.
- JavaLang.ToUpper: maps ASCII letters only. Java's `toUpperCase` maps 'ſ' to 'S' and 'ı' to 'I', so "type_8ſc1" is accepted by both `getCvType` variants (cv_bridge_native/src/cv_bridge/Encode.java:71-131 and cv_bridge/src/cv_bridge/Encode.java:64-123) and rejected by NativeEncode.GetCvType and CvBridgeEncode.GetCvType. For such strings LowerOfUpper (`"ı".toUpperCase().toLowerCase()` is "i") and LowerMatchIffUpperMatch (`"ı".toUpperCase()` equals "I" though `"ı".toLowerCase()` is not "i") do not hold in Java.
- The floating-point scale factors 65535/255 and 255/65535: only which of the three scale cases is chosen is modelled (`OpenCv.Scale`).
- `ChannelBufferOutputStream`, `MessageBuffers` and `ChannelBuffer` offsets: the stream is a byte sequence the payloads are appended to; the message data is that whole sequence.
- Endianness: only a TODO in the code.
- Hashing and equality of the `Pair` classes: the tables are Dafny maps keyed on pairs of families.
- Null arguments other than the message passed to `toImageMsg`: the model has no null strings, matrices or sources. A null `Format` passed to the native `toImageMsg` would fall through every branch like INVALID.
- NativeCompressImage.CvCompressImage.ToCvCopyTo: the upper-cased destination is also what the oracle is asked about, as in the code; the oracle's answers for upper-case strings are unconstrained.
- NativeCompressImage.RunPlan: `getCvType(dst_encoding)` is evaluated once and passed in as an outcome, rather than inside each SAME_FORMAT step; it is a pure function of the same string, so the outcome is the same.
