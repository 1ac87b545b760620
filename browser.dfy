/** The browser's `File` object, reduced to what the components read from it. */
module Browser {

  datatype File = File(name: string, mimeType: string, size: nat)
}
