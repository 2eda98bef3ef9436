/**
 * User registration (template/src/Modules/User/services/users.service.ts).
 *
 * The repository's `create` is the template's mock: it copies the input and
 * adds an id and two timestamps. The random id and the clock reading are
 * parameters here.
 */
module Users {
  import opened Wrappers
  import opened UserEntity
  import opened EventBus

  /** `repository.create(data)`: a user that carries exactly the input fields. */
  function Create(data: CreateUser, id: string, now: int): (u: User)
    ensures u.Input() == data && u.id == id
    ensures u.createdAt == now && u.updatedAt == now
  {
    User(id, data.firstname, data.lastname, data.email, data.password, data.phone, now, now)
  }

  /** The calls `RegisterNewUser` makes on its collaborators, in order. */
  datatype Call = CreateCall(data: CreateUser) | PublishCall(t: EventType, payload: Payload)

  class UsersService {
    /** The process-wide bus the service publishes to. */
    const bus: Bus

    constructor (bus: Bus)
      ensures this.bus == bus
    {
      this.bus := bus;
    }

    /**
     * Creates the user from the input unchanged, then publishes exactly one
     * welcome-mail event whose payload is `{user}`, then returns the created
     * user. Handler failures are swallowed by the bus, so they never reach the
     * caller.
     */
    method RegisterNewUser(data: CreateUser, id: string, now: int, behaviour: (Handler, Payload) -> HandlerResult)
      returns (user: User, calls: seq<Call>, deliveries: seq<Delivery>)
      ensures user == Create(data, id, now)
      ensures user.Input() == data && user.id == id
      ensures calls == [CreateCall(data), PublishCall(SendWelcomeMail, RegisterMail(user))]
      ensures deliveries == Deliveries(bus.Listeners(SendWelcomeMail), SendWelcomeMail, RegisterMail(user), behaviour)
      ensures forall i :: 0 <= i < |deliveries| ==> deliveries[i].payload == RegisterMail(user)
    {
      user := Create(data, id, now);
      calls := [CreateCall(data)];
      var published;
      published, deliveries := NotifyRegister(user, behaviour);
      calls := calls + [published];
    }

    /** Publishes the welcome-mail event for `user`. */
    method NotifyRegister(user: User, behaviour: (Handler, Payload) -> HandlerResult)
      returns (published: Call, deliveries: seq<Delivery>)
      ensures published == PublishCall(SendWelcomeMail, RegisterMail(user))
      ensures deliveries == Deliveries(bus.Listeners(SendWelcomeMail), SendWelcomeMail, RegisterMail(user), behaviour)
    {
      var payload := RegisterMail(user);
      published := PublishCall(SendWelcomeMail, payload);
      deliveries := bus.Publish(SendWelcomeMail, payload, behaviour);
    }
  }

  /** The static `UsersService.instance` field and its lazy accessor. */
  class UsersServiceHolder {
    var instance: UsersService?

    constructor ()
      ensures instance == null
    {
      instance := null;
    }

    /** Builds the instance on the first call and returns the same one on every
        call. */
    method GetInstance(bus: Bus) returns (s: UsersService)
      modifies this
      ensures old(instance) != null ==> s == old(instance)
      ensures old(instance) == null ==> fresh(s) && s.bus == bus
      ensures instance == s
    {
      if instance == null {
        instance := new UsersService(bus);
      }
      s := instance;
    }
  }

  /** Two calls of `getInstance` return the same object. */
  method GetInstanceTwice(holder: UsersServiceHolder, bus: Bus) returns (first: UsersService, second: UsersService)
    modifies holder
    ensures first == second == holder.instance
  {
    first := holder.GetInstance(bus);
    second := holder.GetInstance(bus);
  }
}
