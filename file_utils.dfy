/** `getFileTypeIcon` (src/utils/fileUtils.ts:49-54): an icon chosen by MIME type prefix. */
module FileUtils {

  const ImageIcon := "\U{1F5BC}\U{FE0F}"
  const AudioIcon := "\U{1F3B5}"
  const VideoIcon := "\U{1F3AC}"
  const DocumentIcon := "\U{1F4C4}"

  /** A MIME type has at most one of the three prefixes: they differ in their first letter. */
  lemma PrefixesExclusive(mimeType: string)
    ensures "image/" <= mimeType ==> !("audio/" <= mimeType) && !("video/" <= mimeType)
    ensures "audio/" <= mimeType ==> !("video/" <= mimeType)
  {
    if |mimeType| > 0 {
      assert "image/" <= mimeType ==> mimeType[0] == 'i';
      assert "audio/" <= mimeType ==> mimeType[0] == 'a';
      assert "video/" <= mimeType ==> mimeType[0] == 'v';
    }
  }

  /**
   * The icon of a MIME type: image, audio and video types by their prefix,
   * everything else, the empty type included, as a document. The three
   * prefixes exclude one another, so each icon is given for its prefix alone.
   */
  function FileTypeIcon(mimeType: string): (icon: string)
    ensures icon == ImageIcon <==> "image/" <= mimeType
    ensures icon == AudioIcon <==> "audio/" <= mimeType
    ensures icon == VideoIcon <==> "video/" <= mimeType
    ensures icon == DocumentIcon <==> !("image/" <= mimeType || "audio/" <= mimeType || "video/" <= mimeType)
  {
    PrefixesExclusive(mimeType);
    if "image/" <= mimeType then ImageIcon
    else if "audio/" <= mimeType then AudioIcon
    else if "video/" <= mimeType then VideoIcon
    else DocumentIcon
  }
}
