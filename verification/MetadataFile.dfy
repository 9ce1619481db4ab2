/** The metadata file as one transaction sees it: loaded as a whole, replaced as a whole. */
module MetadataFile {
  import opened Records

  class Store {
    var file: Database

    constructor (initial: Database)
      ensures file == initial
    {
      file := initial;
    }
  }
}
