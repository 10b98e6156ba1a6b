/**
 * The card-search proxy route: it picks an upstream search server from the
 * game type, forwards the query, and maps the upstream reply (or its
 * failure) onto the response. The upstream call is a parameter; the
 * environment variable `PYTHON_API_URL` is an input.
 */
module SearchRoute {
  import opened Wrappers

  const YUGIOH_API_URL := "http://206.189.50.215:8000"
  const DEFAULT_PYTHON_API_URL := "http://127.0.0.1:8000"

  datatype Game = Pokemon | Magic | OnePiece | Yugioh

  /** `searchParams.get('gameType') || 'Yugioh'`, then the branch it selects. */
  function GameOf(gameType: Option<string>): (g: Game)
    ensures g == Pokemon <==> gameType == Some("Pokemon")
    ensures g == Magic <==> gameType == Some("Magic") || gameType == Some("Magic: The Gathering")
    ensures g == OnePiece <==> gameType == Some("OnePiece") || gameType == Some("One Piece")
    ensures !Truthy(gameType) ==> g == Yugioh
  {
    var t := if Truthy(gameType) then gameType.value else "Yugioh";
    if t == "Pokemon" then Pokemon
    else if t == "Magic" || t == "Magic: The Gathering" then Magic
    else if t == "OnePiece" || t == "One Piece" then OnePiece
    else Yugioh
  }

  /** The local server's base URL: the environment's value when set and non-empty. */
  function PokemonApiUrl(env: Option<string>): (r: string)
    ensures Truthy(env) ==> r == env.value
    ensures !Truthy(env) ==> r == DEFAULT_PYTHON_API_URL
  {
    if Truthy(env) then env.value else DEFAULT_PYTHON_API_URL
  }

  /** An upstream call: the endpoint and the query it carries (URI-encoded on the wire). */
  datatype Request = Request(endpoint: string, query: string)

  function Endpoint(g: Game, env: Option<string>): (r: string)
    ensures g == Yugioh ==> r == YUGIOH_API_URL + "/search"
    ensures g == Pokemon ==> r == PokemonApiUrl(env) + "/pokemon/search"
    ensures g == Magic ==> r == PokemonApiUrl(env) + "/magic/search"
    ensures g == OnePiece ==> r == PokemonApiUrl(env) + "/onepiece/search"
  {
    match g
    case Pokemon => PokemonApiUrl(env) + "/pokemon/search"
    case Magic => PokemonApiUrl(env) + "/magic/search"
    case OnePiece => PokemonApiUrl(env) + "/onepiece/search"
    case Yugioh => YUGIOH_API_URL + "/search"
  }

  /** Each local game's path on the local server. */
  function LocalPath(g: Game): string
  {
    match g
    case Pokemon => "/pokemon/search"
    case Magic => "/magic/search"
    case OnePiece => "/onepiece/search"
    case Yugioh => ""
  }

  /**
   * The Pokemon, Magic and One Piece endpoints hang off the one local base,
   * which the environment sets; the Yugioh endpoint does not depend on the
   * environment at all.
   */
  lemma LocalGamesShareBase(g: Game, env: Option<string>, env': Option<string>)
    ensures g != Yugioh ==> Endpoint(g, env) == PokemonApiUrl(env) + LocalPath(g)
    ensures g != Yugioh && Truthy(env) ==> Endpoint(g, env)[..|env.value|] == env.value
    ensures Endpoint(Yugioh, env) == Endpoint(Yugioh, env')
  {
  }

  /** A local endpoint is the local base followed by the game's path. */
  lemma EndpointOnBase(g: Game, env: Option<string>)
    requires g != Yugioh
    ensures Endpoint(g, env) == PokemonApiUrl(env) + LocalPath(g)
  {
  }

  /** The local games' paths differ in their second character, so their endpoints on the shared base differ. */
  lemma LocalEndpointsDistinct(g: Game, h: Game, env: Option<string>)
    requires g != h && g != Yugioh && h != Yugioh
    ensures Endpoint(g, env) != Endpoint(h, env)
  {
    var base := PokemonApiUrl(env);
    var pg, ph := LocalPath(g), LocalPath(h);
    EndpointOnBase(g, env);
    EndpointOnBase(h, env);
    assert pg[1] != ph[1] by {
      assert LocalPath(Pokemon)[1] == 'p' && LocalPath(Magic)[1] == 'm' && LocalPath(OnePiece)[1] == 'o';
    }
    assert (base + pg)[|base| + 1] == pg[1];
    assert (base + ph)[|base| + 1] == ph[1];
  }

  /** The eighth character from the end tells a local endpoint from the Yugioh one. */
  lemma YugiohEndpointApart(g: Game, env: Option<string>)
    requires g != Yugioh
    ensures Endpoint(g, env) != Endpoint(Yugioh, env)
  {
    var yu, path := Endpoint(Yugioh, env), LocalPath(g);
    var lo := PokemonApiUrl(env) + path;
    EndpointOnBase(g, env);
    assert yu[|yu| - 8] == '0';
    assert lo[|lo| - 8] == path[|path| - 8];
    assert path[|path| - 8] != '0' by {
      assert LocalPath(Pokemon)[7] == 'n' && LocalPath(Magic)[5] == 'c' && LocalPath(OnePiece)[8] == 'e';
    }
  }

  /** Whatever the environment holds, the four games reach four different endpoints. */
  lemma EndpointsDistinct(g: Game, h: Game, env: Option<string>)
    requires g != h
    ensures Endpoint(g, env) != Endpoint(h, env)
  {
    if g == Yugioh {
      YugiohEndpointApart(h, env);
    } else if h == Yugioh {
      YugiohEndpointApart(g, env);
    } else {
      LocalEndpointsDistinct(g, h, env);
    }
  }

  /**
   * The upstream body: JSON text of a value other than `null`, the JSON
   * `null` itself, or text whose parse throws.
   */
  datatype Body = Json(text: string) | Null | Malformed(reason: string)

  /** The upstream reply, or the error the call throws. */
  datatype Reply = Failed(reason: string) | Reply(ok: bool, status: int, body: Body)

  datatype Payload =
    | EmptyResults
    | Passthrough(text: string)
    | ErrorOnly(error: string)
    | EmptyResultsWithError(error: string)

  datatype Response = Response(status: int, payload: Payload)

  /**
   * The message of the TypeError the log line's `data.results?.length`
   * throws on a `null` body: optional chaining stops only after `.results`.
   */
  const NULL_RESULTS_ERROR := "Cannot read properties of null (reading 'results')"

  function ServerErrorMessage(g: Game): string
  {
    match g
    case Pokemon => "Pokemon Server Error"
    case Magic => "Magic Server Error"
    case OnePiece => "One Piece Server Error"
    case Yugioh => "Search server error"
  }

  /**
   * Whether the branch of `g` throws on `reply`: the fetch fails, the body
   * does not parse, or (outside the Yugioh branch, which logs nothing) the
   * log line reads `results` of a `null` body.
   */
  predicate Throws(g: Game, reply: Reply)
  {
    reply.Failed? || (reply.ok && (reply.body.Malformed? || (reply.body.Null? && g != Yugioh)))
  }

  function ThrownReason(reply: Reply): string
  {
    if reply.Failed? then reply.reason
    else if reply.body.Malformed? then reply.body.reason
    else NULL_RESULTS_ERROR
  }

  /** `GET`: the response for a query, game type and environment, given the upstream. */
  function Handle(q: Option<string>, gameType: Option<string>, env: Option<string>, upstream: Request -> Reply): (r: Response)
    ensures !Truthy(q) ==> r == Response(200, EmptyResults)
    ensures Truthy(q) ==>
      var g := GameOf(gameType);
      var reply := upstream(Request(Endpoint(g, env), q.value));
      (reply.Reply? && !reply.ok ==> r == Response(reply.status, ErrorOnly(ServerErrorMessage(g))))
      && (reply.Reply? && reply.ok && reply.body.Json? ==> r == Response(200, Passthrough(reply.body.text)))
      && (reply.Reply? && reply.ok && reply.body.Null? && g == Yugioh ==> r == Response(200, Passthrough("null")))
      && (Throws(g, reply) && g != Yugioh ==> r == Response(200, EmptyResultsWithError(ThrownReason(reply))))
      && (Throws(g, reply) && g == Yugioh ==> r == Response(500, ErrorOnly("Internal Proxy Error")))
  {
    if !Truthy(q) then Response(200, EmptyResults)
    else
      var g := GameOf(gameType);
      var reply := upstream(Request(Endpoint(g, env), q.value));
      if reply.Failed? then
        if g == Yugioh then Response(500, ErrorOnly("Internal Proxy Error"))
        else Response(200, EmptyResultsWithError(reply.reason))
      else if !reply.ok then Response(reply.status, ErrorOnly(ServerErrorMessage(g)))
      else match reply.body
        case Json(text) => Response(200, Passthrough(text))
        case Null =>
          if g == Yugioh then Response(200, Passthrough("null"))
          else Response(200, EmptyResultsWithError(NULL_RESULTS_ERROR))
        case Malformed(reason) =>
          if g == Yugioh then Response(500, ErrorOnly("Internal Proxy Error"))
          else Response(200, EmptyResultsWithError(reason))
  }

  /**
   * An upstream error response names the branch it came from: the same
   * failing upstream answers differently for two different games.
   */
  lemma UpstreamErrorIdentifiesGame(q: Option<string>, gameType: Option<string>, gameType': Option<string>,
                                    env: Option<string>, upstream: Request -> Reply)
    requires Truthy(q) && GameOf(gameType) != GameOf(gameType')
    requires var reply := upstream(Request(Endpoint(GameOf(gameType), env), q.value)); reply.Reply? && !reply.ok
    requires var reply := upstream(Request(Endpoint(GameOf(gameType'), env), q.value)); reply.Reply? && !reply.ok
    ensures Handle(q, gameType, env, upstream).payload != Handle(q, gameType', env, upstream).payload
  {
    assert "Pokemon Server Error"[0] == 'P' && "Magic Server Error"[0] == 'M';
    assert "One Piece Server Error"[0] == 'O' && "Search server error"[0] == 'S';
  }

  /**
   * The route passes a body through only from an ok upstream: a JSON value,
   * or the `null` that only the Yugioh branch forwards.
   */
  lemma PassthroughOnlyOfOkBodies(q: Option<string>, gameType: Option<string>, env: Option<string>, upstream: Request -> Reply)
    requires Handle(q, gameType, env, upstream).payload.Passthrough?
    ensures Truthy(q)
    ensures var g := GameOf(gameType);
      var reply := upstream(Request(Endpoint(g, env), q.value));
      var text := Handle(q, gameType, env, upstream).payload.text;
      && reply.Reply? && reply.ok && Handle(q, gameType, env, upstream).status == 200
      && (reply.body == Json(text) || (reply.body.Null? && g == Yugioh && text == "null"))
  {
  }

  /**
   * A 500 comes either from the Yugioh branch's catch-all or from an
   * upstream that itself answered 500; the other branches never make one up.
   */
  lemma Origin500(q: Option<string>, gameType: Option<string>, env: Option<string>, upstream: Request -> Reply)
    requires Handle(q, gameType, env, upstream).status == 500
    ensures Truthy(q)
    ensures var g := GameOf(gameType);
      var reply := upstream(Request(Endpoint(g, env), q.value));
      (g == Yugioh && Throws(g, reply) && Handle(q, gameType, env, upstream).payload == ErrorOnly("Internal Proxy Error"))
      || (reply.Reply? && !reply.ok && reply.status == 500)
  {
  }
}
