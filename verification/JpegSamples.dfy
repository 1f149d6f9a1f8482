/** The walk on known files: the starts of a JFIF file and of an EXIF file. */
module JpegSamples {
  import opened Basics
  import opened Jpeg

  /** The start of a JFIF file of 72 dots per inch, up to its first scan. */
  const JFIF_START: Bytes := [
    0xff, 0xd8, 0xff, 0xe0, 0x00, 0x10, 0x4a, 0x46, 0x49, 0x46, 0x00, 0x01, 0x01, 0x01, 0x00, 0x48, 0x00, 0x48,
    0x00, 0x00, 0xff, 0xda, 0x00, 0x02]

  /** The start of an EXIF file. */
  const EXIF_START: Bytes := [0xff, 0xd8, 0xff, 0xe1, 0x00, 0x08, 0x45, 0x78, 0x69, 0x66, 0x00, 0x00]

  /** The same EXIF segment, behind the start of a scan. */
  const EXIF_IN_SCAN: Bytes := [
    0xff, 0xd8, 0xff, 0xda, 0x00, 0x02, 0xff, 0xe1, 0x00, 0x08, 0x45, 0x78, 0x69, 0x66, 0x00, 0x00]

  lemma KnownJfif()
    ensures Find(JFIF_START, 2, Jfif) == Some(2) && DensityOf(JFIF_START) == Some(Density(1, 72, 72))
    ensures Walk(JFIF_START, 2) == [2]
  {
    assert JFIF_START[6..11] == JFIF_ID;
    assert SegmentAt(JFIF_START, 2) && Next(JFIF_START, 2) == 20;
    assert !SegmentAt(JFIF_START, 20);
  }

  lemma KnownExif()
    ensures Find(EXIF_START, 2, Exif) == Some(2) && DensityOf(EXIF_START) == None
  {
    assert EXIF_START[6..10] == EXIF_ID;
    assert SegmentAt(EXIF_START, 2) && Next(EXIF_START, 2) == 12;
    assert !SegmentAt(EXIF_START, 12);
  }

  /** The walk ends at the scan. */
  lemma ScanEndsTheWalk()
    ensures Walk(EXIF_IN_SCAN, 2) == [] && Find(EXIF_IN_SCAN, 2, Exif) == None
  {
    assert EXIF_IN_SCAN[2] == 0xff && EXIF_IN_SCAN[3] == 0xda;
    assert !SegmentAt(EXIF_IN_SCAN, 2);
  }
}
