/** animegen/components/ImageDisplay.tsx: which of four views the result
    panel shows, chosen by early returns in a fixed order (loading, then an
    error, then an image, else a placeholder). `error` and `imageUrl` are
    tested for JavaScript truthiness, so an empty string counts as absent. */
module ImageDisplay {
  import opened Wrappers

  datatype View = Spinner | ErrorPanel(message: string) | Image(src: string) | Placeholder

  /** JavaScript truthiness of a `string | null`: not null and not "". */
  predicate Truthy(s: Option<string>) {
    s.Some? && s.value != ""
  }

  /** The component body. Each view is characterised by exactly the inputs
      that select it, so the four cases cover every input without overlap. */
  function Render(imageUrl: Option<string>, isLoading: bool, error: Option<string>): (v: View)
    ensures v == Spinner <==> isLoading
    ensures v.ErrorPanel? <==> !isLoading && Truthy(error)
    ensures v.ErrorPanel? ==> v.message == error.value
    ensures v.Image? <==> !isLoading && !Truthy(error) && Truthy(imageUrl)
    ensures v.Image? ==> v.src == imageUrl.value
    ensures v == Placeholder <==> !isLoading && !Truthy(error) && !Truthy(imageUrl)
  {
    if isLoading then Spinner
    else if Truthy(error) then ErrorPanel(error.value)
    else if Truthy(imageUrl) then Image(imageUrl.value)
    else Placeholder
  }
}
