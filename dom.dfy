/** Values the browser reports about the page, shared by both animations. */
module Dom {

  /** A bounding rectangle as `getBoundingClientRect` reports it. */
  datatype Rect = Rect(left: real, top: real, width: real, height: real)
}
