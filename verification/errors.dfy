/** The error values the deployment core can return. Errors that come from a
    collaborator this model does not open up (the Docker daemon, the image
    registry, the Caddy admin API, the YAML decoder) are carried as `External`. */
module Errors {

  datatype Error =
    /** An error produced by a collaborator outside the model, with its text. */
    | External(message: string)
    /** `AllocatePort` found no free candidate: "no available ports". */
    | NoAvailablePorts
    /** The health check gave up: "unable to reach endpoint <url> after <n> attempts". */
    | Unreachable(endpoint: string, attempts: int)
    /** `ContainerStart` failed; the source wraps it as "error allocating port: %w". */
    | StartFailed(cause: Error)
    /** The Docker client could not be created: "failed to create Docker client: %w". */
    | ClientInit(cause: Error)
    /** The configuration file could not be opened: "error opening config file: %v". */
    | OpenFailed(cause: Error)
}
