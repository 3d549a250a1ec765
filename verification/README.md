# django-kong-admin reference models in Dafny

django-kong-admin keeps local Django records ("references") of the routes
(APIs), consumers and consumer credentials that it registers with a Kong API
gateway. This project models the behaviour that the model classes of
`kong_admin/models.py` define themselves:

- `clean()` of `APIReference`, `ConsumerReference` and `OAuth2Reference`. It
  first rewrites blank optional string fields to `None` in place, and that
  rewrite persists even when the method then raises. It then checks that the
  record is consistent and raises `ValidationError` when it is not. Each
  reference is a Dafny `class` whose fields are updated by a `Clean` method
  with `modifies this`. The method returns `Cleaned` or `Raised(error)`, and
  `Raised` stands for the exception.
- `__str__` of every concrete reference except `PluginConfigurationReference`, as functions that read the object.
  Python's `%` formatting is modelled for `%s` conversions of strings
  (`Python.Format`). The strings each `__str__` produces are proved from
  that model.

Python semantics used throughout (module `Python`, file `python.dfy`):

- A nullable field is an `Option`.
- Truthiness of a nullable string is "neither None nor empty" (`Truthy`).
- `x or None` is `OrNone`.
- UUIDs (`kong_id`) and datetimes (`synchronized_at`) are always truthy, so
  only their presence counts.
- `ConsumerReference.__str__` returns `username or custom_id`, which is None
  when the username is blank and there is no custom id. `str()` of such a
  record raises. So that `__str__` returns `Option<string>`, and the
  `__str__` of the credentials that embed a consumer returns None in that
  case as well.

The integration tests use `target_url` and `public_dns` fields
(tests/test_logic.py:28, 40, 50). `kong_admin/models.py:32-35` has no such
fields: its routes have `upstream_url`, `request_host` and `request_path`. The
model follows `kong_admin/models.py`.

## Model

| member | source | states |
|---|---|---|
| `Python.OrNone` | kong_admin/models.py:48-50 | `x or None` never yields an empty string, keeps every non-empty value unchanged and keeps truthiness |
| `Python.OrNoneIdempotent` | kong_admin/models.py:48-50 | normalising a blank field twice is the same as once |
| `Python.Format` | kong_admin/models.py:147 | `template % args` succeeds exactly when the template's `%s` conversions match the number of arguments; otherwise it raises |
| `Python.FormatSplice` | kong_admin/models.py:45 | the first `%s` after literal text takes the first argument, and the rest of the template is formatted with the remaining ones |
| `Models.ApiCheck` | kong_admin/models.py:52-59 | the API record passes exactly when it has a host or a path and `kong_id` and `synchronized_at` are both set or both unset; no host and no path raises the host/path error whatever the sync state; each other error is raised exactly under its own condition |
| `Models.MessagesDistinct` | kong_admin/models.py:53-113 | the four `ValidationError` messages are pairwise different, so the message alone tells which check failed |
| `Models.ConsumerCheck` | kong_admin/models.py:112-113 | the consumer passes exactly when it has a username or a custom id, and otherwise raises the username/custom-id error |
| `Models.ShownKey` | kong_admin/models.py:145-147 | a key of at most 16 characters is shown unchanged; a longer one as its first 16 characters followed by `...`; the shown key is at most 19 characters |
| `Models.APIReference.constructor` | kong_admin/models.py:32-38 | a new record has no name, host or path, `enabled` set, `preserve_host` and `strip_request_path` unset, and no sync state |
| `Models.APIReference.Str` | kong_admin/models.py:44-45 | the upstream URL when the name is blank, otherwise `name (upstream_url)` |
| `Models.APIReference.Clean` | kong_admin/models.py:47-59 | blank name, host and path become None and non-blank ones are kept, whether it returns or raises; no other field changes; the outcome is `ApiCheck` of the normalised record; on success `kong_id` is set exactly when `synchronized_at` is; the new state is a fixed point of the normalisation |
| `Models.ApiCleanTwice` | kong_admin/models.py:47-59 | cleaning an API record twice ends as cleaning it once: the same outcome, blank fields normalised, every other field unchanged |
| `Models.ConsumerReference.constructor` | kong_admin/models.py:97-99 | a new record holds the given username and custom id, is enabled and has no sync state |
| `Models.ConsumerReference.Str` | kong_admin/models.py:105-106 | the username when it is non-empty, otherwise the custom id; the result is a non-empty string exactly when one of the two is non-empty |
| `Models.ConsumerReference.Clean` | kong_admin/models.py:108-113 | blank username and custom id become None, whether it returns or raises; no other field changes; it raises exactly when both were blank; after a success the record displays as a non-empty string |
| `Models.ConsumerCleanTwice` | kong_admin/models.py:108-113 | cleaning a consumer twice ends as cleaning it once: the same outcome, blank fields normalised, every other field unchanged |
| `Models.BasicAuthReference.constructor` | kong_admin/models.py:124-126 | a new record holds the given consumer, username and password |
| `Models.BasicAuthReference.Str` | kong_admin/models.py:132-133 | `BasicAuthReference(consumer: C, username: U)`, raising exactly when the consumer cannot be displayed |
| `Models.KeyAuthReference.constructor` | kong_admin/models.py:137-138 | a new record holds the given consumer and key |
| `Models.KeyAuthReference.Str` | kong_admin/models.py:144-148 | `KeyAuthReference(consumer: C, key: K)` with K the shown key, raising exactly when the consumer cannot be displayed |
| `Models.OAuth2Reference.constructor` | kong_admin/models.py:152-156 | a new record holds the given consumer, name, redirect URI, client id and secret, and has no sync state |
| `Models.OAuth2Reference.Str` | kong_admin/models.py:162-163 | `OAuth2Reference(name: N)` |
| `Models.OAuth2Reference.Clean` | kong_admin/models.py:165-167 | blank client id and secret become None and non-blank ones are kept; no other field changes; it never raises |

## Left out

- `PluginConfigurationReference` (kong_admin/models.py:63-78): its `__str__` is a call into the `Plugins` enumeration, and `kong_admin/enums.py` is not part of this model. Its JSON `config` field belongs to the `jsonfield2` package.
- The commented-out `PluginConfigurationField` (kong_admin/models.py:81-92) is dead code.
- Django ORM plumbing is enforced by the database or by form validation, not by `clean()`. This covers persistence (`save`, `objects.get`), `unique`/`unique_together` constraints across rows, `max_length` limits, URL validation of `upstream_url` and `redirect_uri`, and the `created_at`/`updated_at` timestamps that Django maintains.
- The `KongProxyModel` fields of `BasicAuthReference` and `KeyAuthReference` are omitted, because nothing in those classes reads them.
- Python `%` formatting is modelled only for `%s` conversions of string arguments, the only form the models use. Any other conversion, including the escaped `%%` that Python renders as `%`, is reported as `UnsupportedConversion`.
- `Uuid` and `Timestamp` are plain values (`bv128`, `int`), because only their presence is ever tested.
- The synchronisation functions of `kong_admin.logic` (`synchronize_api`, `synchronize_consumer`) and the sync engines that `kong_admin.factory` returns, with their `withdraw`, are not part of this model: `kong_admin/logic.py` and `kong_admin/factory.py` are not part of this model. Neither are the integration tests in `tests/test_logic.py`, which drive them against a live gateway over the network and use field names the models do not have.
- Translation (`ugettext_lazy`), logging and the `six` compatibility decorator have no effect on the modelled behaviour.
