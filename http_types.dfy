/**
 * The slice of Go's `net/http`, `net/url` and `net` that the edge handlers
 * touch. A header is a Go map, hence a reference: copying a request copies
 * the reference, so the copy and the original share one header.
 */
module HttpTypes {
  import opened Wrappers

  /** Header values by canonical key (`http.Header`'s underlying map). */
  type HeaderMap = map<string, seq<string>>

  /** `Header.Get` on the map: the first value under `key`, or "" when there is none. */
  function FirstValue(fields: HeaderMap, key: string): string
  {
    if key in fields && |fields[key]| > 0 then fields[key][0] else ""
  }

  /** `http.Header`: a mutable, shared map from canonical keys to value lists. */
  class Header {
    var fields: HeaderMap

    constructor (fields: HeaderMap)
      ensures this.fields == fields
    {
      this.fields := fields;
    }

    function Get(key: string): string
      reads this
    {
      FirstValue(fields, key)
    }

    /** `Header.Set`: replaces every value under `key` by the single `value`. */
    method Set(key: string, value: string)
      modifies this
      ensures fields == old(fields)[key := [value]]
    {
      fields := fields[key := [value]];
    }
  }

  /** The fields of `http.Request` the handlers read; `header` is shared by copies. */
  datatype Request = Request(remoteAddr: string, header: Header)

  /** A parsed URL (`url.URL`), reduced to what the handlers use. */
  datatype Url = Url(scheme: string, host: string, path: string)

  /** The two halves of a "host:port" address, as `net.SplitHostPort` returns them. */
  datatype HostPort = HostPort(host: string, port: string)

  /**
   * Library functions whose internals are not part of this model: `url.Parse`
   * and `net.SplitHostPort`, each `None` where Go returns an error.
   */
  datatype Library = Library(parseUrl: string -> Option<Url>, splitHostPort: string -> Option<HostPort>)

  /** What a handler did with a request. */
  datatype Response =
    | Reply(status: int, body: string)   // a status written with `WriteHeader` or `http.Error`
    | Proxied(target: Url)               // handed to the single-host reverse proxy
    | Tunnelled(host: string)            // handshake replayed to `host`, bytes pumped both ways
    | Closed                             // connection hijacked and dropped with no response
}
