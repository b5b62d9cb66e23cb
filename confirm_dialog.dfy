/** How `ConfirmDialog` (site/src/components/ConfirmDialog/ConfirmDialog.tsx)
    turns its props into what it renders: the per-type defaults table, the
    fallbacks for an omitted type, cancel visibility, confirm text and the two
    handlers, and the choice between the info and error palettes. */
module ConfirmDialog {
  import opened Wrappers

  datatype ConfirmDialogType = Delete | Info

  /** A React node as far as JavaScript truthiness is concerned. */
  datatype ReactNode =
    | Undefined
    | Null
    | Bool(b: bool)
    | Text(s: string)
    | Number(n: real)
    | NaN
    | Element(id: nat)

  /** JavaScript truthiness: `undefined`, `null`, `false`, `""`, `0` and NaN
      are falsy. */
  predicate Truthy(node: ReactNode)
  {
    match node
    case Undefined => false
    case Null => false
    case Bool(b) => b
    case Text(s) => s != ""
    case Number(n) => n != 0.0
    case NaN => false
    case Element(_) => true
  }

  /** A callback prop, identified by which function it is. */
  datatype Handler = Handler(id: nat)

  datatype TypeConfig = TypeConfig(confirmText: ReactNode, hideCancel: bool)

  /** `CONFIRM_DIALOG_DEFAULTS[type]`. */
  function Defaults(dialogType: ConfirmDialogType): TypeConfig
  {
    match dialogType
    case Delete => TypeConfig(Text("Delete"), false)
    case Info => TypeConfig(Text("OK"), true)
  }

  /** The defaults table agrees with the documented rule for an undefined
      `hideCancel` (cancel hidden for info dialogs, shown for delete dialogs),
      and every default confirm text renders (is truthy). */
  lemma DefaultsMatchDocumentation(dialogType: ConfirmDialogType)
    ensures Defaults(dialogType).hideCancel <==> dialogType == Info
    ensures Truthy(Defaults(dialogType).confirmText)
    ensures Defaults(Delete).confirmText == Text("Delete") && Defaults(Info).confirmText == Text("OK")
  {
  }

  /** The props the component reads; `None` is an omitted prop. */
  datatype ConfirmDialogProps = ConfirmDialogProps(
    cancelText: ReactNode,
    confirmLoading: Option<bool>,
    confirmText: ReactNode,
    description: ReactNode,
    hideCancel: Option<bool>,
    onClose: Handler,
    onConfirm: Option<Handler>,
    open: Option<bool>,
    title: string,
    dialogType: Option<ConfirmDialogType>)

  /** The props handed on to the action buttons. */
  datatype ActionButtons = ActionButtons(
    cancelText: ReactNode,
    confirmLoading: Option<bool>,
    confirmText: ReactNode,
    onCancel: Option<Handler>,
    onConfirm: Handler,
    dialogType: ConfirmDialogType)

  datatype ColourPair = ColourPair(background: string, text: string)

  /** `theme.palette.confirmDialog`. */
  datatype ConfirmDialogPalette = ConfirmDialogPalette(error: ColourPair, info: ColourPair)

  /** What the dialog renders, less markup and spacing. */
  datatype RenderedDialog = RenderedDialog(
    open: bool,
    onClose: Handler,
    title: string,
    showsDescription: bool,
    background: string,
    textColour: string,
    actions: ActionButtons)

  /** The background (`dialogWrapper`) and text (`dialogContent`) colours:
      info colours for an info dialog, error colours for any other type. */
  function DialogColours(dialogType: ConfirmDialogType, palette: ConfirmDialogPalette): (colours: ColourPair)
    ensures dialogType == Info ==> colours == palette.info
    ensures dialogType != Info ==> colours == palette.error
  {
    ColourPair(
      if dialogType == Info then palette.info.background else palette.error.background,
      if dialogType == Info then palette.info.text else palette.error.text)
  }

  /** The documented cancel rule: an explicit `hideCancel` decides; when it is
      undefined, cancel shows for delete dialogs and not for info dialogs. */
  predicate CancelShown(hideCancel: Option<bool>, dialogType: ConfirmDialogType)
  {
    match hideCancel
    case Some(hidden) => !hidden
    case None => dialogType == Delete
  }

  /** The component itself, as a function of its props and the palette. */
  function Render(props: ConfirmDialogProps, palette: ConfirmDialogPalette): (r: RenderedDialog)
    ensures r.actions.dialogType == (if props.dialogType.Some? then props.dialogType.value else Info)
    ensures r.actions.onCancel == (if CancelShown(props.hideCancel, r.actions.dialogType) then Some(props.onClose) else None)
    ensures r.actions.onConfirm == (if props.onConfirm.Some? then props.onConfirm.value else props.onClose)
    ensures Truthy(props.confirmText) ==> r.actions.confirmText == props.confirmText
    ensures !Truthy(props.confirmText) ==> r.actions.confirmText == Defaults(r.actions.dialogType).confirmText
    ensures Truthy(r.actions.confirmText)
    ensures r.open == (props.open == Some(true))
    ensures r.showsDescription == Truthy(props.description)
    ensures ColourPair(r.background, r.textColour) == DialogColours(r.actions.dialogType, palette)
    ensures r.onClose == props.onClose && r.title == props.title
    ensures r.actions.cancelText == props.cancelText && r.actions.confirmLoading == props.confirmLoading
  {
    var dialogType := props.dialogType.GetOr(Info);
    var defaults := Defaults(dialogType);
    var hideCancel := props.hideCancel.GetOr(defaults.hideCancel);
    var colours := DialogColours(dialogType, palette);
    RenderedDialog(
      props.open.GetOr(false),
      props.onClose,
      props.title,
      Truthy(props.description),
      colours.background,
      colours.text,
      ActionButtons(
        props.cancelText,
        props.confirmLoading,
        if Truthy(props.confirmText) then props.confirmText else defaults.confirmText,
        if !hideCancel then Some(props.onClose) else None,
        props.onConfirm.GetOr(props.onClose),
        dialogType))
  }

  /** An omitted type renders exactly as an explicit `"info"`. */
  lemma OmittedTypeIsInfo(props: ConfirmDialogProps, palette: ConfirmDialogPalette)
    ensures Render(props.(dialogType := None), palette) == Render(props.(dialogType := Some(Info)), palette)
  {
  }

  /** An explicit `hideCancel` wins over the type's default in both
      directions: `false` shows cancel on an info dialog, `true` hides it on a
      delete dialog. */
  lemma ExplicitHideCancelWins(props: ConfirmDialogProps, palette: ConfirmDialogPalette, hidden: bool)
    ensures Render(props.(hideCancel := Some(hidden)), palette).actions.onCancel.Some? <==> !hidden
  {
  }
}
