/** The Bluebox image collection: `all` loads the template listing, and
    `get` fetches one template, answering nil when the service says it is
    not found. lib/fog/compute/models/bluebox/images.rb */
module BlueboxImages {
  import opened FogCore

  /** The attributes of one template, as the service's body gives them. */
  type Attributes = Hash

  /** A `Fog::Compute::Bluebox::Image` built from a template's attributes. */
  datatype Image = Image(attributes: Attributes)

  /** Errors a Bluebox request raises: `Bluebox::NotFound`, or any other
      error, named by its class. */
  datatype RequestError = NotFound(message: string) | OtherError(kind: string, message: string)

  /** The two requests the collection uses, standing for `connection`:
      each gives the response body or raises. */
  datatype Connection = Connection(
    getTemplate: string -> Result<Attributes, RequestError>,
    getTemplates: () -> Result<seq<Attributes>, RequestError>)

  /** `load`: one image per listed entry, in the listing's order. */
  function Load(entries: seq<Attributes>): (images: seq<Image>)
    ensures |images| == |entries|
    ensures forall i | 0 <= i < |entries| :: images[i].attributes == entries[i]
  {
    if entries == [] then [] else [Image(entries[0])] + Load(entries[1..])
  }

  /** `all`: the listing loaded as is; an error from the request propagates. */
  function All(connection: Connection): (r: Result<seq<Image>, RequestError>)
    ensures var listing := connection.getTemplates();
            && (r.Ok? <==> listing.Ok?)
            && (r.Err? ==> r.error == listing.error)
            && (r.Ok? ==> |r.value| == |listing.value|
                          && forall i | 0 <= i < |r.value| :: r.value[i].attributes == listing.value[i])
  {
    var data :- connection.getTemplates();
    Ok(Load(data))
  }

  /** `get`: the image for `templateId`; nil exactly when the request raises
      NotFound, and every other error reaches the caller unchanged. */
  function Get(connection: Connection, templateId: string): (r: Result<Option<Image>, RequestError>)
    ensures var response := connection.getTemplate(templateId);
            && (r == Ok(None) <==> response.Err? && response.error.NotFound?)
            && (response.Ok? ==> r == Ok(Some(Image(response.value))))
            && (response.Err? && !response.error.NotFound? ==> r == Err(response.error))
    ensures r.Err? ==> !r.error.NotFound?
  {
    match connection.getTemplate(templateId)
    case Ok(body) => Ok(Some(Image(body)))
    case Err(NotFound(_)) => Ok(None)
    case Err(e) => Err(e)
  }
}
