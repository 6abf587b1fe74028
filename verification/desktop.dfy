/**
 * DesktopAccess is not part of this model beyond its two observable facts:
 * whether the platform can open a browser, and the URLs it was asked to open.
 */
module Desktop {

  class DesktopAccess {
    const browserSupported: bool
    var openedUrls: seq<string>

    constructor (browserSupported: bool)
      ensures this.browserSupported == browserSupported && openedUrls == []
    {
      this.browserSupported := browserSupported;
      openedUrls := [];
    }

    method OpenUrlInBrowser(url: string)
      modifies this`openedUrls
      ensures openedUrls == old(openedUrls) + [url]
    {
      openedUrls := openedUrls + [url];
    }
  }
}
