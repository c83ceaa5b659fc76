// The handler registry of `Downloader`: three registered sources and
// delegation to their handlers.

module Core {
  import opened Wrappers
  import opened Values
  import opened Router

  /** The names the registry holds a handler for. */
  const REGISTERED: set<string> := {GOOGLE_DRIVE, INSTAGRAM, TIKTOK}

  /**
   * What a registered handler's `download(url, out_dir, options)` does, as
   * a function of the source name: the value it returns or the exception it
   * raises. The handlers themselves are modelled in their own modules.
   */
  type Handlers = (string, string, string, Options) -> Result<Value, Exc>

  /** A `Downloader`: the output directory it was built with. */
  datatype Downloader = Downloader(outDir: string)

  function UnknownSource(name: string): Exc
  {
    Exc(ValueError, "Unknown source: " + name)
  }

  /**
   * `Downloader.download`: refuse an unregistered name, otherwise delegate.
   * Only a registered source can succeed, and a registered source's result
   * is whatever its handler answers, success or exception alike.
   */
  function Download(d: Downloader, name: string, url: string, options: Option<Options>, handlers: Handlers): (r: Result<Value, Exc>)
    ensures r.Success? ==> name in REGISTERED
    ensures name !in REGISTERED ==> r == Failure(UnknownSource(name))
    ensures name in REGISTERED && handlers(name, url, d.outDir, OrEmpty(options)).Failure? ==>
      r.Failure? && r.error == handlers(name, url, d.outDir, OrEmpty(options)).error
  {
    if name !in REGISTERED then Failure(UnknownSource(name))
    else handlers(name, url, d.outDir, OrEmpty(options))
  }

  /**
   * `Downloader.authenticate`: refuse an unregistered name; the Instagram
   * handler is the only one with `interactive_auth`, whose result is
   * `instagramAuth`; any other registered handler gives `None`.
   */
  function Authenticate(d: Downloader, name: string, instagramAuth: Result<Value, Exc>): (r: Result<Value, Exc>)
    ensures name !in REGISTERED ==> r == Failure(UnknownSource(name))
    ensures name in REGISTERED && r != Success(VNone) ==> name == INSTAGRAM && r == instagramAuth
    ensures r.Failure? && r.error.kind != ValueError ==> name == INSTAGRAM
  {
    if name !in REGISTERED then Failure(UnknownSource(name))
    else if name == INSTAGRAM then instagramAuth
    else Success(VNone)
  }

  /** Every registered name is a supported batch source, and five supported ones are not registered. */
  lemma RegistryWithinSupported()
    ensures REGISTERED <= SUPPORTED_SOURCES
    ensures SUPPORTED_SOURCES - REGISTERED == {THREADS, TWITTER, REDDIT, FACEBOOK, YOUTUBE}
  {
  }

  /** A supported but unregistered source always fails, whatever its handlers would do. */
  lemma UnregisteredSourcesFail(d: Downloader, name: string, url: string, options: Option<Options>, handlers: Handlers)
    requires name in {THREADS, TWITTER, REDDIT, FACEBOOK, YOUTUBE}
    ensures Download(d, name, url, options, handlers) == Failure(Exc(ValueError, "Unknown source: " + name))
  {
  }

  /**
   * A download depends only on what the named source's own handler answers
   * for the URL, the downloader's directory and the options: handlers that
   * agree there give the same result, whatever the other sources do.
   */
  lemma DelegatesToOwnHandler(d: Downloader, name: string, url: string, options: Option<Options>, h1: Handlers, h2: Handlers)
    requires h1(name, url, d.outDir, OrEmpty(options)) == h2(name, url, d.outDir, OrEmpty(options))
    ensures Download(d, name, url, options, h1) == Download(d, name, url, options, h2)
  {
  }

  /** A registered source's handler is given the downloader's directory and the options, or `{}` for none. */
  lemma RegisteredDelegates(d: Downloader, name: string, url: string, options: Option<Options>, handlers: Handlers)
    requires name in REGISTERED
    ensures Download(d, name, url, options, handlers) == handlers(name, url, d.outDir, OrEmpty(options))
    ensures options.None? ==> Download(d, name, url, options, handlers) == handlers(name, url, d.outDir, map[])
  {
  }

  /** Missing options and empty options reach the handler the same way. */
  lemma NoOptionsIsEmptyOptions(d: Downloader, name: string, url: string, handlers: Handlers)
    ensures Download(d, name, url, None, handlers) == Download(d, name, url, Some(map[]), handlers)
  {
  }

  /** Google Drive and TikTok never authenticate interactively. */
  lemma AuthenticateWithoutDialog(d: Downloader, instagramAuth: Result<Value, Exc>)
    ensures Authenticate(d, GOOGLE_DRIVE, instagramAuth) == Success(VNone)
    ensures Authenticate(d, TIKTOK, instagramAuth) == Success(VNone)
  {
  }
}
