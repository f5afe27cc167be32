/** Who may make each kind of call, and in which state of affairs: the access table. */
module Rights {
  import opened Accounts
  import opened Introspection
  import opened Machine

  /** `p` is the signer's permission for this controller, and not suspended. */
  predicate Holds(w: World, p: Pubkey, controller: Pubkey, signer: Pubkey) {
    && p in w.permissions && w.permissions[p].controller == controller && w.permissions[p].authority == signer
    && w.permissions[p].status == InForce
  }

  /** The controller is known under this authority and in one of these states. */
  predicate In(w: World, key: Pubkey, authority: Pubkey, states: set<ControllerStatus>) {
    && key in w.controllers && w.controllers[key].authority == authority && w.controllers[key].status in states
  }

  /** Neither the integration nor the reserve is suspended, and both are the controller's. */
  predicate InService(w: World, controller: Pubkey, integration: Pubkey, reserve: Pubkey) {
    && integration in w.integrations && reserve in w.reserves
    && w.integrations[integration].controller == w.reserves[reserve].controller == controller
    && w.integrations[integration].status == InForce && w.reserves[reserve].status == InForce
  }

  /** The right that a new status of a controller takes. */
  predicate MaySet(granted: Capabilities, status: ControllerStatus) {
    match status
    case Active => granted.unfreezeController
    case Frozen => granted.freezeController
    case PushPullFrozen => granted.freezeController
    case AtomicSwapLock => false
  }

  /** The right that a push takes: liquidators serve where the integration permits it. */
  predicate MayPush(granted: Capabilities, args: Args, permitLiquidation: bool) {
    match args
    case SplTokenExternal(_) => granted.invokeExternalTransfer
    case LzBridge(_) => granted.reallocate || (granted.liquidate && permitLiquidation)
    case Kamino(_) => granted.reallocate
    case _ => false
  }

  /** The access table: who signs, with which right, and what must be in force; `Acceptance.EveryCallAccepted`
      proves that it is kept. */
  predicate Authorized(w: World, c: Call)
    requires c.ix.data.Command?
  {
    var a, args := c.ix.accounts, c.ix.data.args;
    var open := {Active, PushPullFrozen};
    match c.ix.data.disc
    case 1 => |a| >= 7 && a[1] == KEEL_DEPLOYER_MSIG && a[2] !in w.controllers
    case 2 =>
      && |a| >= 5 && args.ManageController? && In(w, a[0], a[1], {Active, PushPullFrozen, AtomicSwapLock, Frozen})
      && Holds(w, a[3], a[0], a[2]) && MaySet(w.permissions[a[3]].granted, args.status)
    case 3 =>
      && |a| >= 9 && args.ManagePermission? && In(w, a[1], a[2], open) && Holds(w, a[4], a[1], a[3])
      && (|| w.permissions[a[4]].granted.managePermissions
          || (w.permissions[a[4]].granted.suspendPermissions && args.permissionStatus == Suspended))
    case 4 =>
      && |a| >= 12 && In(w, a[1], a[2], open) && Holds(w, a[4], a[1], a[3])
      && w.permissions[a[4]].granted.manageReservesAndIntegrations
    case 5 =>
      && |a| >= 6 && In(w, a[0], a[1], open) && Holds(w, a[3], a[0], a[2])
      && w.permissions[a[3]].granted.manageReservesAndIntegrations
    case 6 =>
      && |a| >= 8 && In(w, a[1], a[2], open) && Holds(w, a[4], a[1], a[3])
      && w.permissions[a[4]].granted.manageReservesAndIntegrations
    case 7 =>
      && |a| >= 6 && In(w, a[0], a[1], open) && Holds(w, a[3], a[0], a[2])
      && w.permissions[a[3]].granted.manageReservesAndIntegrations
    case 8 => |a| >= 4 && In(w, a[0], a[1], open)
    case 9 => |a| >= 8 && In(w, a[0], a[1], open)
    case 10 =>
      && |a| >= 7 && In(w, a[0], a[1], {Active}) && Holds(w, a[3], a[0], a[2]) && InService(w, a[0], a[4], a[5])
      && MayPush(w.permissions[a[3]].granted, args, w.integrations[a[4]].permitLiquidation)
    case 11 =>
      && |a| >= 7 && In(w, a[0], a[1], {Active}) && Holds(w, a[3], a[0], a[2]) && InService(w, a[0], a[4], a[5])
      && (|| w.permissions[a[3]].granted.reallocate
          || (w.permissions[a[3]].granted.liquidate && w.integrations[a[4]].permitLiquidation))
    case 12 => |a| >= 7 && In(w, a[1], a[2], open)
    case 13 =>
      && |a| >= 6 && In(w, a[0], a[1], open)
      && a[4] in w.oracles && w.oracles[a[4]].controller == a[0] && w.oracles[a[4]].authority == a[2]
    case 15 =>
      && |a| >= 15 && In(w, a[0], a[1], {Active}) && Holds(w, a[3], a[0], a[2])
      && w.permissions[a[3]].granted.executeSwap
      && InService(w, a[0], a[4], a[5]) && InService(w, a[0], a[4], a[8])
    case 16 =>
      && |a| >= 17 && In(w, a[1], a[2], {AtomicSwapLock}) && Holds(w, a[4], a[1], a[3])
      && w.permissions[a[4]].granted.executeSwap
    case _ => true
  }
}
