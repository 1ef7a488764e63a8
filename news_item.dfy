/** The two competing contagions and the per-trial record of each. */
module NewsItems {

  /** The news-type labels `'fake'` and `'real'`. */
  datatype NewsType = Fake | Real {
    /** The competing type. */
    function Other(): (o: NewsType)
      ensures o != this
    {
      if Fake? then Real else Fake
    }
  }

  /** One news item: its label and classification never change; the engine
      counts its shares and may flag it as fake. */
  class NewsItem {
    const title: string
    const isFake: bool
    var sharedCount: int
    var isFlaggedFake: bool

    constructor (title: string, isFake: bool)
      ensures this.title == title && this.isFake == isFake
      ensures sharedCount == 0 && !isFlaggedFake
    {
      this.title := title;
      this.isFake := isFake;
      sharedCount := 0;
      isFlaggedFake := false;
    }

    /** `shared_count += 1`. */
    method CountShare()
      modifies this
      ensures sharedCount == old(sharedCount) + 1 && isFlaggedFake == old(isFlaggedFake)
    {
      sharedCount := sharedCount + 1;
    }
  }
}
