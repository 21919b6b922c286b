/** The fixed catalog of story settings. */
module Catalog {

  /** The four settings, in the order the random pick indexes them. */
  const Settings: seq<string> := ["forest", "ocean", "mountain", "castle"]
}
