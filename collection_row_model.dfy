/** The model of one sidebar row: the icon it shows and the actions it can
    pass back to the sidebar. */
module CollectionRowModels {
  import opened Wrappers
  import opened Collections

  /** What a row can ask the sidebar to do with its collection. */
  datatype RowAction = Delete | ShowInFinder

  /** `icon`: a soundfont read from disk shows a waveform, the favourites a
      heart and a user collection a folder. */
  function Icon(c: Collection): (r: string)
    ensures r == "waveform" <==> c.url.Some?
    ensures r == "heart" <==> c.url.None? && c.IsFavourites()
    ensures r == "folder" <==> c.url.None? && !c.IsFavourites()
  {
    if c.url.Some? then "waveform"
    else if c.IsFavourites() then "heart"
    else "folder"
  }
}
